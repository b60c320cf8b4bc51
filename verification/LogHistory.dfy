// The bounded replay journal of the operation log.
//
// Each lock has a deque of at most CAPACITY identities and a mirror set.  They
// are proved to behave as an unbounded journal of which only the last CAPACITY
// entries are looked at.
module LogHistory {
  import opened Basics

  const CAPACITY: nat := 512

  type Mac = string

  // The stable fields of a record; hashing them is taken to be injective.
  datatype Identity = Identity(
    recordNumber: int,
    recordType: int,
    operateDate: Option<int>,
    uid: Option<int>,
    recordId: Option<int>,
    keyId: Option<int>)

  datatype LogEntry = LogEntry(identity: Identity, password: string)

  // Only a dated record after this load's cutoff is certainly new activity.
  predicate After(entry: LogEntry, cutoff: int) {
    entry.identity.operateDate.Some? && entry.identity.operateDate.value > cutoff
  }

  // The last CAPACITY entries.
  function Window<T>(journal: seq<T>): seq<T> {
    if |journal| <= CAPACITY then journal else journal[|journal| - CAPACITY..]
  }

  // `w` is the last 512 entries, or all of them if there are no more.
  predicate IsLast512<T(==)>(w: seq<T>, journal: seq<T>) {
    |w| <= |journal| && w == journal[|journal| - |w|..] && |w| == if |journal| <= 512 then |journal| else 512
  }

  predicate Distinct<T(==)>(s: seq<T>) {
    forall i, j :: 0 <= i < j < |s| ==> s[i] != s[j]
  }

  // The reference: an unbounded journal, in which a record is a duplicate when
  // its identity is among the last CAPACITY journaled ones.
  function Journaled(journal: seq<Identity>, entries: seq<LogEntry>): seq<Identity>
    decreases |entries|
  {
    if entries == [] then journal
    else if entries[0].identity in Window(journal) then Journaled(journal, entries[1..])
    else Journaled(journal + [entries[0].identity], entries[1..])
  }

  function Emitted(journal: seq<Identity>, entries: seq<LogEntry>, cutoff: int): seq<LogEntry>
    decreases |entries|
  {
    if entries == [] then []
    else if entries[0].identity in Window(journal) then Emitted(journal, entries[1..], cutoff)
    else
      (if After(entries[0], cutoff) then [entries[0]] else [])
      + Emitted(journal + [entries[0].identity], entries[1..], cutoff)
  }

  // Two entries with one identity are more than CAPACITY apart.
  ghost predicate Spaced(journal: seq<Identity>) {
    forall p, q :: 0 <= p < q < |journal| && journal[p] == journal[q] ==> q - p > CAPACITY
  }

  lemma SpacedWindow(journal: seq<Identity>)
    requires Spaced(journal)
    ensures Distinct(Window(journal))
  {
    var w := Window(journal);
    var d := |journal| - |w|;
    forall i, j | 0 <= i < j < |w|
      ensures w[i] != w[j]
    {
      assert w[i] == journal[d + i] && w[j] == journal[d + j];
    }
  }

  lemma InWindow(journal: seq<Identity>, p: nat)
    requires p < |journal| <= p + CAPACITY
    ensures journal[p] in Window(journal)
  {
    assert journal[p] == Window(journal)[p - (|journal| - |Window(journal)|)];
  }

  lemma SpacedAppend(journal: seq<Identity>, id: Identity)
    requires Spaced(journal) && id !in Window(journal)
    ensures Spaced(journal + [id])
  {
    hide Window;
    var j := journal + [id];
    forall p | 0 <= p < |journal| <= p + CAPACITY
      ensures journal[p] != id
    {
      InWindow(journal, p);
    }
  }

  // What was journaled stays; entries that follow keep their distance.
  lemma {:induction false} JournalGrows(journal: seq<Identity>, entries: seq<LogEntry>)
    requires Spaced(journal)
    ensures journal <= Journaled(journal, entries) && Spaced(Journaled(journal, entries))
    decreases |entries|
  {
    if entries != [] {
      if entries[0].identity in Window(journal) {
        JournalGrows(journal, entries[1..]);
      } else {
        SpacedAppend(journal, entries[0].identity);
        JournalGrows(journal + [entries[0].identity], entries[1..]);
      }
    }
  }

  // The next entry is a duplicate, or is journaled.
  lemma Unroll(journal: seq<Identity>, entries: seq<LogEntry>, i: nat, cutoff: int)
    requires i < |entries|
    ensures var e := entries[i];
            if e.identity in Window(journal) then
              && Journaled(journal, entries[i..]) == Journaled(journal, entries[i + 1..])
              && Emitted(journal, entries[i..], cutoff) == Emitted(journal, entries[i + 1..], cutoff)
            else
              && Journaled(journal, entries[i..]) == Journaled(journal + [e.identity], entries[i + 1..])
              && Emitted(journal, entries[i..], cutoff) ==
                   (if After(e, cutoff) then [e] else []) + Emitted(journal + [e.identity], entries[i + 1..], cutoff)
  {
    assert entries[i..][0] == entries[i] && entries[i..][1..] == entries[i + 1..];
  }

  // Where an emitted record comes from: it is after the cutoff, and journaled
  // at a position of its own in this batch.
  lemma {:induction false} EmittedIsJournaled(
    journal: seq<Identity>, entries: seq<LogEntry>, cutoff: int, k: nat) returns (p: nat)
    requires Spaced(journal) && k < |Emitted(journal, entries, cutoff)|
    ensures Emitted(journal, entries, cutoff)[k].identity.operateDate.Some?
    ensures Emitted(journal, entries, cutoff)[k].identity.operateDate.value > cutoff
    ensures Emitted(journal, entries, cutoff)[k] in entries
    ensures |journal| <= p < |Journaled(journal, entries)|
    ensures Journaled(journal, entries)[p] == Emitted(journal, entries, cutoff)[k].identity
    decreases |entries|
  {
    hide Spaced, Window;
    assert entries != [];
    Unroll(journal, entries, 0, cutoff);
    assert entries[0..] == entries;
    var e := entries[0];
    if e.identity in Window(journal) {
      p := EmittedIsJournaled(journal, entries[1..], cutoff, k);
    } else {
      SpacedAppend(journal, e.identity);
      var next := journal + [e.identity];
      JournalGrows(next, entries[1..]);
      if After(e, cutoff) && k == 0 {
        p := |journal|;
        assert next[p] == e.identity;
      } else {
        p := EmittedIsJournaled(next, entries[1..], cutoff, if After(e, cutoff) then k - 1 else k);
      }
    }
  }

  // An emitted record that was journaled before, at p, is journaled again at q:
  // between the two lie at least 512 journalings of identities that all differ.
  lemma EmittedAgainOnlyLater(journal: seq<Identity>, entries: seq<LogEntry>, cutoff: int, k: nat, p: nat)
    returns (q: nat)
    requires Spaced(journal) && k < |Emitted(journal, entries, cutoff)|
    requires p < |journal| && journal[p] == Emitted(journal, entries, cutoff)[k].identity
    ensures |journal| <= q < |Journaled(journal, entries)|
    ensures Journaled(journal, entries)[q] == journal[p] && q - p - 1 >= 512
    ensures Distinct(Journaled(journal, entries)[q - 512..q])
  {
    hide Journaled, Emitted;
    JournalGrows(journal, entries);
    q := EmittedIsJournaled(journal, entries, cutoff, k);
    SpacedSlice(Journaled(journal, entries), p, q);
  }

  lemma SpacedSlice(j: seq<Identity>, p: nat, q: nat)
    requires Spaced(j) && p < q < |j| && j[p] == j[q]
    ensures q - p - 1 >= CAPACITY && Distinct(j[q - CAPACITY..q])
  {
    var w := j[q - CAPACITY..q];
    forall a, b | 0 <= a < b < |w|
      ensures w[a] != w[b]
    {
      assert w[a] == j[q - CAPACITY + a] && w[b] == j[q - CAPACITY + b];
    }
  }

  // The identity is one of the last 512 of the journal.
  ghost predicate Recent(journal: seq<Identity>, id: Identity) {
    exists p :: 0 <= p < |journal| && |journal| <= p + 512 && journal[p] == id
  }

  lemma RecentIsInWindow(journal: seq<Identity>, id: Identity)
    ensures Recent(journal, id) <==> id in Window(journal)
  {
    var w := Window(journal);
    if id in w {
      var k :| 0 <= k < |w| && w[k] == id;
      assert journal[|journal| - |w| + k] == id;
    }
    if Recent(journal, id) {
      var p :| 0 <= p < |journal| && |journal| <= p + 512 && journal[p] == id;
      InWindow(journal, p);
    }
  }

  // Nothing genuine is lost: wherever it stands in a batch, a record is emitted
  // exactly if it is dated after the cutoff and its identity is not among the
  // last 512 journaled when its turn comes; and then it comes last.
  lemma {:induction false} FreshRecordIsEmitted(journal: seq<Identity>, entries: seq<LogEntry>, k: nat, cutoff: int)
    requires k < |entries|
    ensures var e, before := entries[k], Journaled(journal, entries[..k]);
            var late := match e.identity.operateDate case Some(d) => d > cutoff case None => false;
            && Emitted(journal, entries[..k + 1], cutoff) ==
                 Emitted(journal, entries[..k], cutoff) + (if !Recent(before, e.identity) && late then [e] else [])
            && Journaled(journal, entries[..k + 1]) ==
                 before + (if !Recent(before, e.identity) then [e.identity] else [])
    decreases k
  {
    hide Window, Recent;
    var a, b := entries[..k], entries[..k + 1];
    RecentIsInWindow(Journaled(journal, a), entries[k].identity);
    if k == 0 {
      Unroll(journal, b, 0, cutoff);
      assert b[0..] == b && b[1..] == [];
    } else {
      var rest := entries[1..];
      assert a[1..] == rest[..k - 1] && b[1..] == rest[..k];
      var id := entries[0].identity;
      var next := if id in Window(journal) then journal else journal + [id];
      FreshRecordIsEmitted(next, rest, k - 1, cutoff);
    }
  }

  lemma WindowIsLast<T>(w: seq<T>, journal: seq<T>)
    ensures IsLast512(w, journal) <==> w == Window(journal)
  {
  }

  lemma WindowTwice<T>(journal: seq<T>)
    ensures Window(Window(journal)) == Window(journal)
  {
  }

  lemma WindowAppend<T>(journal: seq<T>, x: T)
    ensures Window(Window(journal) + [x]) == Window(journal + [x])
  {
  }

  // Only the window matters: a journal restored from the saved window
  // classifies every later batch as the full journal would.
  lemma {:induction false} WindowSuffices(
    journal: seq<Identity>, other: seq<Identity>, entries: seq<LogEntry>, cutoff: int)
    requires Window(journal) == Window(other)
    ensures Emitted(journal, entries, cutoff) == Emitted(other, entries, cutoff)
    ensures Window(Journaled(journal, entries)) == Window(Journaled(other, entries))
    decreases |entries|
  {
    if entries != [] {
      var id := entries[0].identity;
      if id in Window(journal) {
        WindowSuffices(journal, other, entries[1..], cutoff);
      } else {
        WindowAppend(journal, id);
        WindowAppend(other, id);
        WindowSuffices(journal + [id], other + [id], entries[1..], cutoff);
      }
    }
  }

  // ---- The journal as the class keeps it ----------------------------------

  function Elements<T(==)>(s: seq<T>): set<T> {
    set x | x in s
  }

  // One new identity appended to the bounded deque.
  function Push<T>(recent: seq<T>, x: T): seq<T> {
    (if |recent| == CAPACITY then recent[1..] else recent) + [x]
  }

  function PushSet<T(==)>(recent: seq<T>, mirror: set<T>, x: T): set<T> {
    (if |recent| == CAPACITY then mirror - {recent[0]} else mirror) + {x}
  }

  // The mirror set survives the next new identity exactly if the one that is
  // evicted for it does not occur in the deque a second time.
  lemma MirrorSurvives<T>(recent: seq<T>, x: T)
    requires |recent| <= CAPACITY && x !in recent
    ensures PushSet(recent, Elements(recent), x) == Elements(Push(recent, x))
            <==> |recent| < CAPACITY || recent[0] !in recent[1..]
  {
    if |recent| == CAPACITY {
      assert recent == [recent[0]] + recent[1..];
      if recent[0] in recent[1..] {
        assert recent[0] in Elements(Push(recent, x));
        assert recent[0] !in PushSet(recent, Elements(recent), x);
      }
    }
  }

  // With a duplicate in the loaded deque the mirror forgets an identity that
  // the deque still holds, and the record would be emitted again.
  lemma DuplicateBreaksMirror<T>(recent: seq<T>, x: T)
    requires |recent| == CAPACITY && x !in recent && recent[0] in recent[1..]
    ensures recent[0] in Push(recent, x) && recent[0] !in PushSet(recent, Elements(recent), x)
  {
    assert recent[0] in Push(recent, x);
  }

  lemma PushIsWindow(journal: seq<Identity>, id: Identity)
    ensures Push(Window(journal), id) == Window(journal + [id])
  {
    assert |Window(journal)| <= CAPACITY;
  }

  lemma NoMoreEntries(journal: seq<Identity>, entries: seq<LogEntry>, cutoff: int)
    requires entries == []
    ensures Journaled(journal, entries) == journal && Emitted(journal, entries, cutoff) == []
  {
  }

  // One journaled identity keeps deque and mirror in step with the journal.
  lemma PushKeeps(journal: seq<Identity>, deque: seq<Identity>, mirror: set<Identity>, id: Identity)
    requires Spaced(journal) && deque == Window(journal) && mirror == Elements(deque)
    requires id !in mirror
    ensures Spaced(journal + [id])
    ensures Push(deque, id) == Window(journal + [id])
    ensures PushSet(deque, mirror, id) == Elements(Push(deque, id))
  {
    SpacedWindow(journal);
    MirrorSurvives(deque, id);
    PushIsWindow(journal, id);
    SpacedAppend(journal, id);
  }

  lemma EmptyWindow()
    ensures Mirrors([], [], {})
  {
  }

  // One lock's deque and mirror agree, and are the window of its journal.
  ghost predicate Mirrors(journal: seq<Identity>, deque: seq<Identity>, mirror: set<Identity>) {
    Spaced(journal) && deque == Window(journal) && mirror == Elements(deque)
  }

  // The loop of `classify` over one batch, on one lock's deque and mirror.
  method ClassifyBatch(
    deque0: seq<Identity>, mirror0: set<Identity>, entries: seq<LogEntry>, cutoff: int,
    ghost journal: seq<Identity>)
    returns (deque: seq<Identity>, mirror: set<Identity>, live: seq<LogEntry>)
    requires Mirrors(journal, deque0, mirror0)
    ensures Mirrors(Journaled(journal, entries), deque, mirror)
    ensures live == Emitted(journal, entries, cutoff)
  {
    hide Spaced, Window, Journaled, Emitted;
    deque, mirror, live := deque0, mirror0, [];
    ghost var j := journal;
    assert entries[0..] == entries;
    for i := 0 to |entries|
      invariant Mirrors(j, deque, mirror)
      invariant Journaled(journal, entries) == Journaled(j, entries[i..])
      invariant Emitted(journal, entries, cutoff) == live + Emitted(j, entries[i..], cutoff)
    {
      var id := entries[i].identity;
      Unroll(j, entries, i, cutoff);
      if id in mirror {
        continue;
      }
      PushKeeps(j, deque, mirror, id);
      if |deque| == CAPACITY {
        mirror := mirror - {deque[0]};
        deque := deque[1..];
      }
      deque := deque + [id];
      mirror := mirror + {id};
      j := j + [id];
      if After(entries[i], cutoff) {
        live := live + [entries[i]];
      }
    }
    NoMoreEntries(j, entries[|entries|..], cutoff);
  }

  class TtlockBleLogHistory {
    const startupCutoff: int
    var recent: map<Mac, seq<Identity>>
    var recentSets: map<Mac, set<Identity>>
    var stored: Option<map<Mac, seq<Identity>>>  // the private store's content
    ghost var journal: map<Mac, seq<Identity>>

    // Deque and mirror agree, and are the window of the unbounded journal.
    ghost predicate Valid()
      reads this
    {
      && recent.Keys == recentSets.Keys == journal.Keys
      && forall mac :: mac in recent ==> Mirrors(journal[mac], recent[mac], recentSets[mac])
    }

    ghost function Past(mac: Mac): seq<Identity>
      reads this
    {
      if mac in journal then journal[mac] else []
    }

    constructor (cutoff: int, stored: Option<map<Mac, seq<Identity>>>)
      ensures Valid() && startupCutoff == cutoff && journal == map[] && this.stored == stored
    {
      startupCutoff := cutoff;
      recent, recentSets, journal := map[], map[], map[];
      this.stored := stored;
    }

    // Classify one batch: the records that are certainly new, in order.
    method Classify(mac: Mac, entries: seq<LogEntry>) returns (live: seq<LogEntry>)
      requires Valid()
      modifies this
      ensures Valid() && stored == old(stored)
      ensures journal == old(journal)[mac := Journaled(old(Past(mac)), entries)]
      ensures live == Emitted(old(Past(mac)), entries, startupCutoff)
    {
      hide Journaled, Emitted, Mirrors;
      var deque := if mac in recent then recent[mac] else [];
      var mirror := if mac in recentSets then recentSets[mac] else {};
      EmptyWindow();
      deque, mirror, live := ClassifyBatch(deque, mirror, entries, startupCutoff, Past(mac));
      recent := recent[mac := deque];
      recentSets := recentSets[mac := mirror];
      journal := journal[mac := Journaled(Past(mac), entries)];
    }

    // Flush the bounded journal.
    method Save()
      requires Valid()
      modifies this`stored
      ensures Valid() && stored.Some? && stored.value.Keys == journal.Keys
      ensures forall mac :: mac in journal ==> IsLast512(stored.value[mac], journal[mac])
    {
      stored := Some(recent);
    }

    // `past` is a journal the stored one may have been saved from.
    ghost predicate SavedFrom(past: map<Mac, seq<Identity>>)
      reads this`stored
    {
      && stored.Some? && past.Keys == stored.value.Keys
      && forall mac :: mac in past ==> Spaced(past[mac]) && Window(past[mac]) == Window(stored.value[mac])
    }

    // Load the stored journal: the last CAPACITY identities of each lock.
    method Load(ghost past: map<Mac, seq<Identity>>)
      requires Valid() && recent == map[]
      modifies this
      ensures stored == old(stored)
      ensures stored.None? ==> Valid() && recent == map[]
      ensures stored.Some? ==> recent.Keys == recentSets.Keys == stored.value.Keys
      ensures stored.Some? ==> forall mac :: mac in recent ==>
                IsLast512(recent[mac], stored.value[mac]) && forall x :: x in recentSets[mac] <==> x in recent[mac]
      ensures SavedFrom(past) ==> Valid() && journal == past
    {
      if stored.None? {
        return;
      }
      recent := map mac | mac in stored.value :: Window(stored.value[mac]);
      recentSets := map mac | mac in stored.value :: Elements(Window(stored.value[mac]));
      journal := past;
    }
  }

  // A stored journal without duplicates can have been saved from itself.
  lemma DistinctIsSpaced(identities: seq<Identity>)
    ensures Spaced(Window(identities)) <==> Distinct(Window(identities))
  {
    var w := Window(identities);
    assert Window(w) == w;
    if Spaced(w) {
      SpacedWindow(w);
    }
  }

  // Saving and loading into a new load keeps the journal, and with it every
  // later classification.
  method Reload(history: TtlockBleLogHistory, cutoff: int) returns (reloaded: TtlockBleLogHistory)
    requires history.Valid()
    modifies history`stored
    ensures fresh(reloaded) && reloaded.Valid() && reloaded.startupCutoff == cutoff
    ensures reloaded.journal == history.journal && reloaded.recent == history.recent
  {
    hide Spaced, Window, Elements, IsLast512;
    history.Save();
    forall mac | mac in history.journal
      ensures history.stored.value[mac] == Window(history.journal[mac]) == Window(history.stored.value[mac])
    {
      WindowIsLast(history.stored.value[mac], history.journal[mac]);
      WindowTwice(history.journal[mac]);
    }
    reloaded := new TtlockBleLogHistory(cutoff, history.stored);
    reloaded.Load(history.journal);
    forall mac | mac in history.journal
      ensures reloaded.recent[mac] == Window(history.stored.value[mac])
    {
      WindowIsLast(reloaded.recent[mac], history.stored.value[mac]);
    }
  }
}
