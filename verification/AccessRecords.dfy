// Reconciling one inventory with the private records of one lock and method.
//
// A record's base is the keyed handle of the credential it was made for; its
// reference is a random token, drawn from a supply that never repeats, and its
// alias a label given by an administrator.
module AccessRecords {
  import opened Basics
  import opened CredentialReferences

  const ACCESS_METHODS: set<string> := {"keypad_pin", "fingerprint", "ic_card"}
  const MAX_RECORDS: nat := 512

  type Reference = nat  // the n-th token drawn

  datatype PrivateRecord = PrivateRecord(
    base: Token,
    reference: Reference,
    recordType: string,
    validity: string,
    alias: string,
    active: bool)

  datatype Item = Item(method_: string, recordType: string, identifier: Bytes, validity: string)

  // An item, with its identifier already turned into a base.
  datatype Sighting = Sighting(base: Token, recordType: string, validity: string)

  // ---- Bases --------------------------------------------------------------

  function Base(key: Option<Bytes>, lock: string, method_: string, epoch: string, item: Item): Option<Token> {
    FromVerifiedRecord(key, lock, method_, epoch + "/" + item.recordType, item.identifier)
  }

  predicate AllDerivable(key: Option<Bytes>, lock: string, method_: string, epoch: string, items: seq<Item>) {
    forall i :: 0 <= i < |items| ==> Base(key, lock, method_, epoch, items[i]).Some?
  }

  function Sightings(key: Option<Bytes>, lock: string, method_: string, epoch: string, items: seq<Item>): seq<Sighting>
    requires AllDerivable(key, lock, method_, epoch, items)
  {
    seq(|items|, i requires 0 <= i < |items| =>
      Sighting(Base(key, lock, method_, epoch, items[i]).value, items[i].recordType, items[i].validity))
  }

  // Two items share a base exactly when lock, method, epoch, type and
  // identifier agree.
  lemma BaseIdentifies(
    key: Option<Bytes>, lock: string, method_: string, epoch: string, a: Item,
    lock': string, method': string, epoch': string, b: Item)
    requires '/' !in epoch && '/' !in epoch'
    requires Base(key, lock, method_, epoch, a).Some? && Base(key, lock', method', epoch', b).Some?
    ensures Base(key, lock, method_, epoch, a) == Base(key, lock', method', epoch', b)
            <==> && lock == lock' && method_ == method' && epoch == epoch'
                 && a.recordType == b.recordType && a.identifier == b.identifier
  {
    hide FromVerifiedRecord, Derivable;
    HandleIdentifies(
      key, lock, method_, epoch + "/" + a.recordType, a.identifier,
      lock', method', epoch' + "/" + b.recordType, b.identifier);
    if epoch + "/" + a.recordType == epoch' + "/" + b.recordType {
      FirstSlashSplits(epoch, a.recordType, epoch', b.recordType);
    }
  }

  // ---- The reference: what one reconciliation makes of the records --------

  // A record that may still stand for its credential: PIN discovery is not
  // exhaustive, so an unseen PIN keeps its record; other kinds retire.
  predicate Alive(r: PrivateRecord, pin: bool) {
    r.active || pin
  }

  // The record that stands for a base, if there is one: the last alive one.
  function Holder(records: seq<PrivateRecord>, pin: bool, base: Token): (h: Option<nat>)
    ensures h.Some? ==> h.value < |records| && Alive(records[h.value], pin) && records[h.value].base == base
    ensures h.Some? ==> forall j :: h.value < j < |records| ==> !(Alive(records[j], pin) && records[j].base == base)
    ensures h.None? ==> forall j :: 0 <= j < |records| ==> !(Alive(records[j], pin) && records[j].base == base)
  {
    if records == [] then None
    else
      var n := |records| - 1;
      if Alive(records[n], pin) && records[n].base == base then Some(n) else Holder(records[..n], pin, base)
  }

  // The validity last reported for a base.
  function LastSeen(sightings: seq<Sighting>, base: Token): (v: Option<string>)
    ensures v.None? <==> forall k :: 0 <= k < |sightings| ==> sightings[k].base != base
  {
    if sightings == [] then None
    else
      var n := |sightings| - 1;
      if sightings[n].base == base then Some(sightings[n].validity) else LastSeen(sightings[..n], base)
  }

  function Touched(records: seq<PrivateRecord>, i: nat, pin: bool, sightings: seq<Sighting>): PrivateRecord
    requires i < |records|
  {
    var r := records[i];
    var seen := LastSeen(sightings, r.base);
    if seen.Some? && Holder(records, pin, r.base) == Some(i) then r.(active := true, validity := seen.value) else r
  }

  // A seen base keeps its record; an unseen one is retired, but never a PIN.
  function Settled(records: seq<PrivateRecord>, i: nat, pin: bool, sightings: seq<Sighting>): PrivateRecord
    requires i < |records|
  {
    var r := Touched(records, i, pin, sightings);
    if LastSeen(sightings, r.base).Some? then r else r.(active := r.active && pin)
  }

  // New records: one for each item whose base no record stands for.
  function Additions(
    records: seq<PrivateRecord>, pin: bool, sightings: seq<Sighting>, next: Reference): seq<PrivateRecord>
  {
    if sightings == [] then []
    else
      var n := |sightings| - 1;
      var s := sightings[n];
      var front := Additions(records, pin, sightings[..n], next);
      if Holder(records, pin, s.base).Some? then front
      else front + [PrivateRecord(s.base, next + n, s.recordType, s.validity, "", true)]
  }

  function Merged(
    records: seq<PrivateRecord>, pin: bool, sightings: seq<Sighting>, next: Reference): seq<PrivateRecord> {
    seq(|records|, i requires 0 <= i < |records| => Settled(records, i, pin, sightings))
    + Additions(records, pin, sightings, next)
  }

  // The reference that item k was observed under.
  function ObservedAs(
    records: seq<PrivateRecord>, pin: bool, sightings: seq<Sighting>, next: Reference, k: nat): Reference
    requires k < |sightings|
  {
    var h := Holder(records, pin, sightings[k].base);
    if h.Some? then records[h.value].reference else next + k
  }

  function Observed(records: seq<PrivateRecord>, pin: bool, sightings: seq<Sighting>, next: Reference): set<Reference> {
    set k | 0 <= k < |sightings| :: ObservedAs(records, pin, sightings, next, k)
  }

  // The records whose confirmation of a label lapses.
  function Unseen(records: seq<PrivateRecord>, sightings: seq<Sighting>): set<Reference> {
    set i | 0 <= i < |records| && LastSeen(sightings, records[i].base).None? :: records[i].reference
  }

  // ---- The loops of `async_reconcile` -------------------------------------

  lemma HolderGrows(records: seq<PrivateRecord>, i: nat, pin: bool, base: Token)
    requires i < |records|
    ensures Holder(records[..i + 1], pin, base) ==
              if Alive(records[i], pin) && records[i].base == base then Some(i) else Holder(records[..i], pin, base)
  {
    assert records[..i + 1][..i] == records[..i];
  }

  // The lookup built before the items are read: each base that an alive record
  // stands for leads to that record, to the last one if there are several.
  method HolderMap(records: seq<PrivateRecord>, pin: bool) returns (active: map<Token, nat>)
    ensures forall b :: b in active <==> Holder(records, pin, b).Some?
    ensures forall b :: b in active ==> Holder(records, pin, b) == Some(active[b])
  {
    active := map[];
    for i := 0 to |records|
      invariant forall b :: b in active <==> Holder(records[..i], pin, b).Some?
      invariant forall b :: b in active ==> Holder(records[..i], pin, b) == Some(active[b])
    {
      forall b
        ensures Holder(records[..i + 1], pin, b) ==
                  if Alive(records[i], pin) && records[i].base == b then Some(i) else Holder(records[..i], pin, b)
      {
        HolderGrows(records, i, pin, b);
      }
      if Alive(records[i], pin) {
        active := active[records[i].base := i];
      }
    }
    assert records[..|records|] == records;
  }

  // The records after the first k items.
  ghost predicate Partly(
    records: seq<PrivateRecord>, pin: bool, sightings: seq<Sighting>, next: Reference, after: seq<PrivateRecord>) {
    && |after| == |records| + |Additions(records, pin, sightings, next)|
    && (forall i :: 0 <= i < |records| ==> after[i] == Touched(records, i, pin, sightings))
    && after[|records|..] == Additions(records, pin, sightings, next)
  }

  // What item k does to record i, and to the new records.
  lemma TouchedStep(records: seq<PrivateRecord>, i: nat, pin: bool, sightings: seq<Sighting>, k: nat)
    requires i < |records| && k < |sightings|
    ensures Touched(records, i, pin, sightings[..k + 1]) ==
              if Holder(records, pin, sightings[k].base) == Some(i)
              then Touched(records, i, pin, sightings[..k]).(active := true, validity := sightings[k].validity)
              else Touched(records, i, pin, sightings[..k])
  {
    hide Holder;
    assert sightings[..k + 1][..k] == sightings[..k];
    HolderHolds(records, pin, sightings[k].base);
  }

  lemma HolderHolds(records: seq<PrivateRecord>, pin: bool, base: Token)
    ensures var h := Holder(records, pin, base); h.Some? ==> h.value < |records| && records[h.value].base == base
  {
  }

  lemma AdditionsStep(records: seq<PrivateRecord>, pin: bool, sightings: seq<Sighting>, next: Reference, k: nat)
    requires k < |sightings|
    ensures var s := sightings[k];
            Additions(records, pin, sightings[..k + 1], next) ==
              Additions(records, pin, sightings[..k], next)
              + if Holder(records, pin, s.base).Some? then []
                else [PrivateRecord(s.base, next + k, s.recordType, s.validity, "", true)]
  {
    hide Holder;
    assert sightings[..k + 1][..k] == sightings[..k];
  }

  lemma PartlyStep(
    records: seq<PrivateRecord>, pin: bool, sightings: seq<Sighting>, next: Reference, k: nat,
    after: seq<PrivateRecord>)
    requires k < |sightings| && Partly(records, pin, sightings[..k], next, after)
    ensures var s := sightings[k];
            var h := Holder(records, pin, s.base);
            Partly(records, pin, sightings[..k + 1], next,
                   if h.Some? then after[h.value := after[h.value].(active := true, validity := s.validity)]
                   else after + [PrivateRecord(s.base, next + k, s.recordType, s.validity, "", true)])
  {
    hide Holder, Touched, Additions;
    var s := sightings[k];
    var h := Holder(records, pin, s.base);
    AdditionsStep(records, pin, sightings, next, k);
    forall i | 0 <= i < |records|
      ensures Touched(records, i, pin, sightings[..k + 1]) ==
                if h == Some(i) then after[i].(active := true, validity := s.validity) else after[i]
    {
      TouchedStep(records, i, pin, sightings, k);
    }
    if h.Some? {
      assert after[h.value := after[h.value].(active := true, validity := s.validity)][|records|..]
          == after[|records|..];
    } else {
      assert (after + [PrivateRecord(s.base, next + k, s.recordType, s.validity, "", true)])[|records|..]
          == after[|records|..] + [PrivateRecord(s.base, next + k, s.recordType, s.validity, "", true)];
    }
  }

  lemma ObservedStep(records: seq<PrivateRecord>, pin: bool, sightings: seq<Sighting>, next: Reference, k: nat)
    requires k < |sightings|
    ensures Observed(records, pin, sightings[..k + 1], next)
            == Observed(records, pin, sightings[..k], next) + {ObservedAs(records, pin, sightings, next, k)}
  {
    hide Holder;
    var a, b := sightings[..k + 1], sightings[..k];
    assert forall j :: 0 <= j < k ==> ObservedAs(records, pin, a, next, j) == ObservedAs(records, pin, b, next, j);
    assert ObservedAs(records, pin, a, next, k) == ObservedAs(records, pin, sightings, next, k);
  }

  lemma SightingsGrow(key: Option<Bytes>, lock: string, method_: string, epoch: string, items: seq<Item>, k: nat)
    requires k < |items| && AllDerivable(key, lock, method_, epoch, items[..k])
    ensures AllDerivable(key, lock, method_, epoch, items[..k + 1]) <==> Base(key, lock, method_, epoch, items[k]).Some?
    ensures Base(key, lock, method_, epoch, items[k]).Some? ==>
              Sightings(key, lock, method_, epoch, items[..k + 1])
              == Sightings(key, lock, method_, epoch, items[..k])
                 + [Sighting(Base(key, lock, method_, epoch, items[k]).value, items[k].recordType, items[k].validity)]
  {
    hide Base;
    var a, b := items[..k], items[..k + 1];
    assert forall i :: 0 <= i < k ==> a[i] == b[i];
    assert b[k] == items[k];
  }

  // The items loop: derive each base, find or append its record.
  method ObserveItems(
    records: seq<PrivateRecord>, active: map<Token, nat>, key: Option<Bytes>,
    lock: string, method_: string, epoch: string, items: seq<Item>, next: Reference)
    returns (exit: Exit<seq<PrivateRecord>>, seen: set<Token>, observed: set<Reference>)
    requires forall b :: b in active <==> Holder(records, method_ == "keypad_pin", b).Some?
    requires forall b :: b in active ==> Holder(records, method_ == "keypad_pin", b) == Some(active[b])
    ensures exit.Return? <==> AllDerivable(key, lock, method_, epoch, items)
    ensures exit.Raise? ==> exit.error == Other
    ensures exit.Return? ==>
              var pin, sightings := method_ == "keypad_pin", Sightings(key, lock, method_, epoch, items);
              && Partly(records, pin, sightings, next, exit.value)
              && observed == Observed(records, pin, sightings, next)
              && seen == SeenBases(sightings)
  {
    hide Holder, Touched, Base, Partly, Additions, Observed, AllDerivable, Sightings;
    var pin := method_ == "keypad_pin";
    var after := records;
    seen, observed := {}, {};
    ghost var sightings: seq<Sighting> := [];
    PartlyNone(records, pin, next);
    NothingSighted(key, lock, method_, epoch);
    for k := 0 to |items|
      invariant AllDerivable(key, lock, method_, epoch, items[..k]) && |sightings| == k
      invariant sightings == Sightings(key, lock, method_, epoch, items[..k])
      invariant Partly(records, pin, sightings, next, after)
      invariant observed == Observed(records, pin, sightings, next)
      invariant seen == SeenBases(sightings)
    {
      var base := Base(key, lock, method_, epoch, items[k]);
      SightingsGrow(key, lock, method_, epoch, items, k);
      if base.None? {
        NotDerivable(key, lock, method_, epoch, items, k);
        return Raise(Other), seen, observed;
      }
      ghost var s := Sighting(base.value, items[k].recordType, items[k].validity);
      ghost var more := sightings + [s];
      assert more[..k] == sightings && more[..k + 1] == more;
      PartlyStep(records, pin, more, next, k, after);
      ObservedStep(records, pin, more, next, k);
      PartlyLength(records, pin, sightings, next, after);
      seen := seen + {base.value};
      if base.value in active {
        var i := active[base.value];
        after := after[i := after[i].(active := true, validity := items[k].validity)];
        observed := observed + {after[i].reference};
      } else {
        after := after + [PrivateRecord(base.value, next + k, items[k].recordType, items[k].validity, "", true)];
        observed := observed + {next + k};
      }
      sightings := more;
    }
    assert items[..|items|] == items;
    return Return(after), seen, observed;
  }

  lemma NothingSighted(key: Option<Bytes>, lock: string, method_: string, epoch: string)
    ensures AllDerivable(key, lock, method_, epoch, []) && Sightings(key, lock, method_, epoch, []) == []
  {
  }

  lemma NotDerivable(key: Option<Bytes>, lock: string, method_: string, epoch: string, items: seq<Item>, k: nat)
    requires k < |items| && Base(key, lock, method_, epoch, items[k]).None?
    ensures !AllDerivable(key, lock, method_, epoch, items)
  {
    hide Base;
  }

  lemma PartlyNone(records: seq<PrivateRecord>, pin: bool, next: Reference)
    ensures Partly(records, pin, [], next, records)
    ensures Observed(records, pin, [], next) == {}
  {
  }

  // Observing an item keeps a record's reference.
  lemma PartlyLength(
    records: seq<PrivateRecord>, pin: bool, sightings: seq<Sighting>, next: Reference, after: seq<PrivateRecord>)
    requires Partly(records, pin, sightings, next, after)
    ensures |records| <= |after|
    ensures forall i :: 0 <= i < |records| ==> after[i].reference == records[i].reference
  {
  }

  function SeenBases(sightings: seq<Sighting>): set<Token> {
    set k | 0 <= k < |sightings| :: sightings[k].base
  }

  lemma AdditionsSeen(records: seq<PrivateRecord>, pin: bool, sightings: seq<Sighting>, next: Reference)
    ensures forall j :: 0 <= j < |Additions(records, pin, sightings, next)| ==>
              Additions(records, pin, sightings, next)[j].base in SeenBases(sightings)
  {
    hide Holder;
  }

  // The last loop: what was not seen retires, unless it is a PIN.
  method RetireUnseen(
    records: seq<PrivateRecord>, after: seq<PrivateRecord>, seen: set<Token>, pin: bool, confirmed: set<Reference>,
    ghost sightings: seq<Sighting>, ghost next: Reference)
    returns (merged: seq<PrivateRecord>, stillConfirmed: set<Reference>)
    requires Partly(records, pin, sightings, next, after) && seen == SeenBases(sightings)
    ensures merged == Merged(records, pin, sightings, next)
    ensures stillConfirmed == confirmed - Unseen(records, sightings)
  {
    hide Holder, Additions, LastSeen;
    AdditionsSeen(records, pin, sightings, next);
    assert forall b :: b in seen <==> LastSeen(sightings, b).Some?;
    merged, stillConfirmed := [], confirmed;
    for i := 0 to |after|
      invariant |merged| == i
      invariant forall j :: 0 <= j < i ==>
                  merged[j] == if after[j].base in seen then after[j]
                               else after[j].(active := after[j].active && pin)
      invariant stillConfirmed == confirmed - UnseenAmong(after, seen, i)
    {
      if after[i].base !in seen {
        merged := merged + [after[i].(active := after[i].active && pin)];
        stillConfirmed := stillConfirmed - {after[i].reference};
      } else {
        merged := merged + [after[i]];
      }
    }
    UnseenSplits(records, pin, sightings, next, after);
    assert merged == Merged(records, pin, sightings, next) by {
      assert forall j :: |records| <= j < |after| ==>
        after[j] == Additions(records, pin, sightings, next)[j - |records|];
    }
  }

  ghost function UnseenAmong(after: seq<PrivateRecord>, seen: set<Token>, n: nat): set<Reference>
    requires n <= |after|
  {
    set j | 0 <= j < n && after[j].base !in seen :: after[j].reference
  }

  lemma UnseenSplits(
    records: seq<PrivateRecord>, pin: bool, sightings: seq<Sighting>, next: Reference, after: seq<PrivateRecord>)
    requires Partly(records, pin, sightings, next, after)
    ensures UnseenAmong(after, SeenBases(sightings), |after|) == Unseen(records, sightings)
  {
    hide Holder, Additions, LastSeen;
    AdditionsSeen(records, pin, sightings, next);
    assert forall j :: |records| <= j < |after| ==> after[j] == Additions(records, pin, sightings, next)[j - |records|];
    var seen := SeenBases(sightings);
    forall j | 0 <= j < |records|
      ensures after[j].base in seen <==> LastSeen(sightings, records[j].base).Some?
      ensures after[j].reference == records[j].reference
    {
    }
  }

  // ---- What a reconciliation keeps ----------------------------------------

  // Records are never dropped, moved, renamed or given another reference; a
  // retired one stays retired, and a PIN is never retired.
  ghost predicate Evolves(a: seq<PrivateRecord>, b: seq<PrivateRecord>, pin: bool) {
    && |a| <= |b|
    && forall i :: 0 <= i < |a| ==>
         && b[i].base == a[i].base && b[i].reference == a[i].reference && b[i].recordType == a[i].recordType
         && (pin && a[i].active ==> b[i].active)
         && (!pin && !a[i].active ==> !b[i].active)
  }

  lemma MergedKeeps(records: seq<PrivateRecord>, pin: bool, sightings: seq<Sighting>, next: Reference)
    ensures Evolves(records, Merged(records, pin, sightings, next), pin)
    ensures forall i :: 0 <= i < |records| ==> Merged(records, pin, sightings, next)[i].alias == records[i].alias
  {
  }

  // Item k was given a record of its own.
  ghost predicate AddedFor(r: PrivateRecord, s: Sighting, next: Reference, k: nat) {
    r == PrivateRecord(s.base, next + k, s.recordType, s.validity, "", true)
  }

  // Each new record was added for one item whose base had no record.
  lemma {:induction false} AddedForItem(
    records: seq<PrivateRecord>, pin: bool, sightings: seq<Sighting>, next: Reference, j: nat) returns (k: nat)
    requires j < |Additions(records, pin, sightings, next)|
    ensures k < |sightings| && Holder(records, pin, sightings[k].base).None?
    ensures AddedFor(Additions(records, pin, sightings, next)[j], sightings[k], next, k)
    ensures j == |Additions(records, pin, sightings[..k], next)|
    decreases |sightings|
  {
    hide Holder;
    var n := |sightings| - 1;
    if j < |Additions(records, pin, sightings[..n], next)| {
      k := AddedForItem(records, pin, sightings[..n], next, j);
      assert sightings[..n][..k] == sightings[..k];
    } else {
      k := n;
    }
  }

  // ... and each such item got one.
  lemma {:induction false} ItemWasAdded(
    records: seq<PrivateRecord>, pin: bool, sightings: seq<Sighting>, next: Reference, k: nat) returns (j: nat)
    requires k < |sightings| && Holder(records, pin, sightings[k].base).None?
    ensures j < |Additions(records, pin, sightings, next)|
    ensures AddedFor(Additions(records, pin, sightings, next)[j], sightings[k], next, k)
    decreases |sightings|
  {
    hide Holder;
    var n := |sightings| - 1;
    if k < n {
      j := ItemWasAdded(records, pin, sightings[..n], next, k);
    } else {
      j := |Additions(records, pin, sightings[..n], next)|;
    }
  }

  ghost predicate DistinctReferences(records: seq<PrivateRecord>) {
    forall i, j :: 0 <= i < j < |records| ==> records[i].reference != records[j].reference
  }

  ghost predicate ReferencesBelow(records: seq<PrivateRecord>, next: Reference) {
    forall i :: 0 <= i < |records| ==> records[i].reference < next
  }

  // New records come with an empty label and a reference never seen before.
  lemma MergedAdds(records: seq<PrivateRecord>, pin: bool, sightings: seq<Sighting>, next: Reference)
    requires DistinctReferences(records) && ReferencesBelow(records, next)
    ensures var m := Merged(records, pin, sightings, next);
            && DistinctReferences(m) && ReferencesBelow(m, next + |sightings|)
            && forall i :: |records| <= i < |m| ==> m[i].reference >= next && m[i].alias == "" && m[i].active
  {
    hide Holder, LastSeen;
    var m, added := Merged(records, pin, sightings, next), Additions(records, pin, sightings, next);
    forall j | 0 <= j < |added|
      ensures next <= added[j].reference < next + |sightings| && added[j].alias == "" && added[j].active
    {
      var k := AddedForItem(records, pin, sightings, next, j);
    }
    forall a, b | 0 <= a < b < |added|
      ensures added[a].reference != added[b].reference
    {
      var k := AddedForItem(records, pin, sightings, next, a);
      var l := AddedForItem(records, pin, sightings, next, b);
    }
    assert forall i :: |records| <= i < |m| ==> m[i] == added[i - |records|];
  }

  lemma {:induction false} LastSeenAt(sightings: seq<Sighting>, k: nat)
    requires k < |sightings|
    requires forall l :: k < l < |sightings| ==> sightings[l].base != sightings[k].base
    ensures LastSeen(sightings, sightings[k].base) == Some(sightings[k].validity)
    decreases |sightings|
  {
    var n := |sightings| - 1;
    if k < n {
      LastSeenAt(sightings[..n], k);
    }
  }

  // Every item is stored: an active record with its base and the reference it
  // was observed under; and with its validity, if no later item of that base
  // brought another one.
  lemma ItemIsStored(
    records: seq<PrivateRecord>, pin: bool, sightings: seq<Sighting>, next: Reference, k: nat) returns (i: nat)
    requires k < |sightings|
    ensures var m := Merged(records, pin, sightings, next);
            && i < |m| && m[i].active && m[i].base == sightings[k].base
            && m[i].reference == ObservedAs(records, pin, sightings, next, k)
            && ((forall l :: k < l < |sightings| ==> sightings[l].base != sightings[k].base) ==>
                  m[i].validity == sightings[k].validity)
  {
    var h := Holder(records, pin, sightings[k].base);
    if h.Some? {
      i := h.value;
      if forall l :: k < l < |sightings| ==> sightings[l].base != sightings[k].base {
        LastSeenAt(sightings, k);
      }
    } else {
      var j := ItemWasAdded(records, pin, sightings, next, k);
      i := |records| + j;
    }
  }

  function ActiveReferences(records: seq<PrivateRecord>): set<Reference> {
    set i | 0 <= i < |records| && records[i].active :: records[i].reference
  }

  // What was observed is active and stored.
  lemma ObservedIsActive(records: seq<PrivateRecord>, pin: bool, sightings: seq<Sighting>, next: Reference)
    ensures Observed(records, pin, sightings, next) <= ActiveReferences(Merged(records, pin, sightings, next))
  {
    hide Merged, ObservedAs;
    forall o | o in Observed(records, pin, sightings, next)
      ensures o in ActiveReferences(Merged(records, pin, sightings, next))
    {
      var k :| 0 <= k < |sightings| && o == ObservedAs(records, pin, sightings, next, k);
      var i := ItemIsStored(records, pin, sightings, next, k);
    }
  }

  // A credential without a live record - never seen, or retired since - is
  // stored under a new reference and without a label.
  lemma EnrolledAnew(
    records: seq<PrivateRecord>, pin: bool, sightings: seq<Sighting>, next: Reference, k: nat) returns (i: nat)
    requires k < |sightings|
    requires forall j :: 0 <= j < |records| && records[j].base == sightings[k].base ==> !Alive(records[j], pin)
    ensures var m := Merged(records, pin, sightings, next);
            && |records| <= i < |m| && m[i].base == sightings[k].base
            && m[i].reference == next + k && m[i].alias == "" && m[i].active
  {
    var j := ItemWasAdded(records, pin, sightings, next, k);
    i := |records| + j;
  }

  // ---- One live record for each base --------------------------------------

  ghost predicate OneRecordEach(records: seq<PrivateRecord>, pin: bool) {
    forall i, j :: 0 <= i < j < |records| && Alive(records[i], pin) && Alive(records[j], pin) ==>
      records[i].base != records[j].base
  }

  // No two items share a base that no record stands for yet.
  ghost predicate NoDoubleEnrolment(records: seq<PrivateRecord>, pin: bool, sightings: seq<Sighting>) {
    forall k, l :: 0 <= k < l < |sightings| && sightings[k].base == sightings[l].base ==>
      Holder(records, pin, sightings[k].base).Some?
  }

  lemma AdditionsDistinct(records: seq<PrivateRecord>, pin: bool, sightings: seq<Sighting>, next: Reference)
    requires NoDoubleEnrolment(records, pin, sightings)
    ensures var added := Additions(records, pin, sightings, next);
            forall a, b :: 0 <= a < b < |added| ==> added[a].base != added[b].base
  {
    hide Holder, Additions;
    var added := Additions(records, pin, sightings, next);
    forall a, b | 0 <= a < b < |added|
      ensures added[a].base != added[b].base
    {
      var k := AddedForItem(records, pin, sightings, next, a);
      var l := AddedForItem(records, pin, sightings, next, b);
      assert k != l;
    }
  }

  // A reconciliation keeps one live record for each base exactly when its
  // inventory does not enrol the same credential twice.
  lemma OneRecordEachKept(records: seq<PrivateRecord>, pin: bool, sightings: seq<Sighting>, next: Reference)
    requires OneRecordEach(records, pin)
    ensures OneRecordEach(Merged(records, pin, sightings, next), pin) <==> NoDoubleEnrolment(records, pin, sightings)
  {
    if NoDoubleEnrolment(records, pin, sightings) {
      NoDoubleEnrolmentSuffices(records, pin, sightings, next);
    } else {
      var k, l :| 0 <= k < l < |sightings| && sightings[k].base == sightings[l].base
                  && Holder(records, pin, sightings[k].base).None?;
      var a := ItemWasAdded(records, pin, sightings, next, k);
      var b := ItemWasAdded(records, pin, sightings, next, l);
      var m := Merged(records, pin, sightings, next);
      assert m[|records| + a].reference != m[|records| + b].reference;
      assert m[|records| + a].base == m[|records| + b].base;
    }
  }

  lemma NoDoubleEnrolmentSuffices(records: seq<PrivateRecord>, pin: bool, sightings: seq<Sighting>, next: Reference)
    requires OneRecordEach(records, pin) && NoDoubleEnrolment(records, pin, sightings)
    ensures OneRecordEach(Merged(records, pin, sightings, next), pin)
  {
    var m, added := Merged(records, pin, sightings, next), Additions(records, pin, sightings, next);
    AdditionsDistinct(records, pin, sightings, next);
    hide Additions, LastSeen, NoDoubleEnrolment;
    forall i, j | 0 <= i < j < |m| && Alive(m[i], pin) && Alive(m[j], pin)
      ensures m[i].base != m[j].base
    {
      if j < |records| {
        assert Alive(records[i], pin) && Alive(records[j], pin);
      } else if i < |records| {
        var k := AddedForItem(records, pin, sightings, next, j - |records|);
        assert Alive(records[i], pin);
      } else {
        assert m[i] == added[i - |records|] && m[j] == added[j - |records|];
      }
    }
  }

  // Items that differ in type or identifier enrol no credential twice.
  lemma DistinctItemsSuffice(
    key: Option<Bytes>, lock: string, method_: string, epoch: string, items: seq<Item>,
    records: seq<PrivateRecord>, pin: bool)
    requires '/' !in epoch && AllDerivable(key, lock, method_, epoch, items)
    requires DistinctItems(items)
    ensures NoDoubleEnrolment(records, pin, Sightings(key, lock, method_, epoch, items))
  {
    hide Base, Holder;
    forall k, l | 0 <= k < l < |items|
      ensures Base(key, lock, method_, epoch, items[k]) != Base(key, lock, method_, epoch, items[l])
    {
      BaseIdentifies(key, lock, method_, epoch, items[k], lock, method_, epoch, items[l]);
    }
  }

  ghost predicate DistinctItems(items: seq<Item>) {
    forall k, l :: 0 <= k < l < |items| ==>
      items[k].recordType != items[l].recordType || items[k].identifier != items[l].identifier
  }

  // ---- A ticket used a second time ----------------------------------------

  // References observed before stay those of active records exactly if each of
  // their bases is seen again, or the records are PINs.
  lemma StaleObservation(
    records: seq<PrivateRecord>, pin: bool, sightings: seq<Sighting>, next: Reference, observed: set<Reference>)
    requires DistinctReferences(records) && ReferencesBelow(records, next)
    requires observed <= ActiveReferences(records)
    ensures observed <= ActiveReferences(Merged(records, pin, sightings, next))
            <==> pin || observed !! Unseen(records, sightings)
  {
    if pin || observed !! Unseen(records, sightings) {
      SeenStaysTrue(records, pin, sightings, next, observed);
    } else {
      var o :| o in observed && o in Unseen(records, sightings);
      UnseenIsRetired(records, sightings, next, o);
    }
  }

  lemma SeenStaysTrue(
    records: seq<PrivateRecord>, pin: bool, sightings: seq<Sighting>, next: Reference, observed: set<Reference>)
    requires observed <= ActiveReferences(records)
    requires pin || observed !! Unseen(records, sightings)
    ensures observed <= ActiveReferences(Merged(records, pin, sightings, next))
  {
    var m := Merged(records, pin, sightings, next);
    hide Holder, Additions, LastSeen;
    forall o | o in observed
      ensures o in ActiveReferences(m)
    {
      var i :| 0 <= i < |records| && records[i].active && records[i].reference == o;
      assert pin || LastSeen(sightings, records[i].base).Some? by {
        if LastSeen(sightings, records[i].base).None? {
          assert o in Unseen(records, sightings);
        }
      }
      assert m[i].active && m[i].reference == o;
    }
  }

  lemma UnseenIsRetired(records: seq<PrivateRecord>, sightings: seq<Sighting>, next: Reference, o: Reference)
    requires DistinctReferences(records) && ReferencesBelow(records, next)
    requires o in Unseen(records, sightings)
    ensures o !in ActiveReferences(Merged(records, false, sightings, next))
  {
    var m := Merged(records, false, sightings, next);
    MergedAdds(records, false, sightings, next);
    hide Holder, Additions, LastSeen;
    var i :| 0 <= i < |records| && LastSeen(sightings, records[i].base).None? && records[i].reference == o;
    assert m[i].reference == o && !m[i].active;
    forall j | 0 <= j < |m| && m[j].active
      ensures m[j].reference != o
    {
      assert j != i;
    }
  }
}
