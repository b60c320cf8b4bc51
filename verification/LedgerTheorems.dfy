// What every run of the session protocol satisfies, stated on the recorded
// events alone wherever that is possible.
module LedgerTheorems {
  import opened Basics
  import opened Ledger

  // ---- Ownership ----------------------------------------------------------

  ghost predicate NoRetired(h: seq<Event>, i: nat, j: nat, g: nat) {
    forall k :: i < k < j && k < |h| ==> h[k] != Retired(g)
  }

  // Generation g was created before k and its teardown not yet confirmed.
  ghost predicate Unretired(h: seq<Event>, k: nat, g: nat) {
    exists i :: 0 <= i < k && i < |h| && h[i] == Created(g) && NoRetired(h, i, k, g)
  }

  predicate Owns(owner: Owner, g: nat) {
    !owner.Nobody? && owner.generation == g
  }

  // How one event changes ownership.
  lemma OwnerStep(s: State, e: Event)
    requires Enabled(s, e)
    ensures e.Created? ==> s.owner.Nobody? && e.generation == s.created + 1
    ensures e.Created? ==> Apply(s, e).owner == Pending(e.generation)
    ensures e.Retired? ==> s.owner == Pending(e.generation) && Apply(s, e).owner.Nobody?
    ensures !e.Created? && !e.Retired? ==> Apply(s, e).owner.Nobody? == s.owner.Nobody?
    ensures !e.Created? && !e.Retired? && !s.owner.Nobody? ==>
              Apply(s, e).owner.generation == s.owner.generation
    ensures Apply(s, e).created == if e.Created? then e.generation else s.created
  {
    hide NextAttempt, NextAcquisition, NextTeardown, NextClean, NextGate, NextWork, NextRequested, NextSearch;
  }

  lemma {:induction false} OwnedUntilRetired(h: seq<Event>, ss: seq<State>, i: nat, k: nat)
    requires Run(h, ss)
    requires i < k <= |h| && h[i].Created?
    requires NoRetired(h, i, k, h[i].generation)
    ensures Owns(ss[k].owner, h[i].generation) && ss[k].created == h[i].generation
  {
    hide Apply, Enabled;
    OwnerStep(ss[k - 1], h[k - 1]);
    if k > i + 1 {
      OwnedUntilRetired(h, ss, i, k - 1);
    }
  }

  lemma {:induction false} OwnerWasCreated(h: seq<Event>, ss: seq<State>, k: nat) returns (i: nat)
    requires Run(h, ss)
    requires k <= |h| && !ss[k].owner.Nobody?
    ensures i < k && h[i] == Created(ss[k].owner.generation)
    ensures NoRetired(h, i, k, ss[k].owner.generation)
  {
    hide Apply, Enabled;
    assert k > 0;
    OwnerStep(ss[k - 1], h[k - 1]);
    if h[k - 1].Created? {
      i := k - 1;
    } else {
      i := OwnerWasCreated(h, ss, k - 1);
    }
  }

  // The owned generation is exactly the one unretired creation.
  lemma UnretiredIsOwned(h: seq<Event>, ss: seq<State>, k: nat, g: nat)
    requires Run(h, ss) && k <= |h|
    ensures Unretired(h, k, g) <==> Owns(ss[k].owner, g)
  {
    if Unretired(h, k, g) {
      var i :| 0 <= i < k && i < |h| && h[i] == Created(g) && NoRetired(h, i, k, g);
      OwnedUntilRetired(h, ss, i, k);
    }
    if Owns(ss[k].owner, g) {
      var i := OwnerWasCreated(h, ss, k);
    }
  }

  // At most one created client is unretired, and it is the latest created.
  lemma AtMostOneUnretired(h: seq<Event>, ss: seq<State>, k: nat, g: nat, g': nat)
    requires Run(h, ss) && k <= |h|
    requires Unretired(h, k, g) && Unretired(h, k, g')
    ensures g == g' == ss[k].created
  {
    UnretiredIsOwned(h, ss, k, g);
    UnretiredIsOwned(h, ss, k, g');
    var i := OwnerWasCreated(h, ss, k);
    OwnedUntilRetired(h, ss, i, k);
  }

  // A client is created only after the previous one's teardown was confirmed.
  lemma CreatedAfterRetired(h: seq<Event>, ss: seq<State>, i: nat, j: nat)
    requires Run(h, ss)
    requires i < j < |h| && h[i].Created? && h[j].Created?
    ensures exists k :: i < k < j && h[k] == Retired(h[i].generation)
    ensures h[i].generation < h[j].generation
  {
    hide Apply, Enabled;
    OwnerStep(ss[i], h[i]);
    OwnerStep(ss[j], h[j]);
    if NoRetired(h, i, j, h[i].generation) {
      OwnedUntilRetired(h, ss, i, j);
    }
    CreatedGrows(h, ss, i + 1, j);
  }

  lemma {:induction false} CreatedGrows(h: seq<Event>, ss: seq<State>, i: nat, j: nat)
    requires Run(h, ss) && i <= j <= |h|
    ensures ss[i].created <= ss[j].created
  {
    hide Apply, Enabled;
    if i < j {
      CreatedGrows(h, ss, i, j - 1);
      OwnerStep(ss[j - 1], h[j - 1]);
    }
  }

  // ---- Shutdown -----------------------------------------------------------

  ghost predicate NoRestart(h: seq<Event>, i: nat, j: nat) {
    forall k :: i < k < j && k < |h| ==> !h[k].Restarted?
  }

  lemma {:induction false} ClosingHolds(h: seq<Event>, ss: seq<State>, i: nat, k: nat)
    requires Run(h, ss)
    requires i < k <= |h| && ss[i + 1].closing && NoRestart(h, i, k)
    ensures ss[k].closing
  {
    if k > i + 1 {
      ClosingHolds(h, ss, i, k - 1);
      assert Enabled(ss[k - 1], h[k - 1]);
    }
  }

  // From a stop until the next start no operation creates or adopts a client,
  // also not one already scanning or connecting when the stop came.
  lemma NoSessionWhileStopped(h: seq<Event>, ss: seq<State>, i: nat, j: nat)
    requires Run(h, ss)
    requires i < j < |h| && h[i].Stopped? && NoRestart(h, i, j)
    ensures !h[j].Created? && !h[j].Adopted?
  {
    assert ss[i + 1] == Apply(ss[i], h[i]);
    ClosingHolds(h, ss, i, j);
    assert Enabled(ss[j], h[j]);
  }

  lemma StoppedStep(s: State, e: Event)
    requires Enabled(s, e) && !e.Restarted?
    requires s.owner.Nobody? && !s.up && s.closing
    ensures Apply(s, e).owner.Nobody? && !Apply(s, e).up && Apply(s, e).closing
  {
    hide NextAttempt, NextAcquisition, NextTeardown, NextClean, NextGate, NextWork, NextRequested, NextSearch;
  }

  // A shutdown that completed owns nothing and has announced the link down,
  // and this stays so until the next start.
  lemma {:induction false} ShutdownHolds(h: seq<Event>, ss: seq<State>, i: nat, j: nat)
    requires Run(h, ss)
    requires i < j <= |h| && h[i] == Released(Completed)
    requires ss[i].holder == Some(Shutdown) && ss[i].closing && NoRestart(h, i, j)
    ensures ss[j].owner.Nobody? && !ss[j].up && ss[j].closing
  {
    if j == i + 1 {
      assert Enabled(ss[i], h[i]);
    } else {
      hide Apply, Enabled;
      ShutdownHolds(h, ss, i, j - 1);
      StoppedStep(ss[j - 1], h[j - 1]);
    }
  }

  // ---- Announcements ------------------------------------------------------

  // The up/down announcements among the first k events, in order.
  ghost function Announcements(h: seq<Event>, k: nat): seq<bool>
    requires k <= |h|
  {
    if k == 0 then []
    else if h[k - 1].Announced? then Announcements(h, k - 1) + [h[k - 1].up]
    else Announcements(h, k - 1)
  }

  lemma AnnouncementStep(s: State, e: Event)
    requires Enabled(s, e)
    ensures Apply(s, e).up == if e.Announced? then e.up else s.up
    ensures e.Announced? ==> e.up != s.up
  {
  }

  // Announcements strictly alternate, starting with up.
  lemma {:induction false} AnnouncementsAlternate(h: seq<Event>, ss: seq<State>, k: nat)
    requires Run(h, ss) && k <= |h|
    ensures forall m :: 0 <= m < |Announcements(h, k)| ==>
              Announcements(h, k)[m] == (m % 2 == 0)
    ensures ss[k].up == (|Announcements(h, k)| % 2 == 1)
  {
    hide Apply, Enabled;
    if k > 0 {
      AnnouncementsAlternate(h, ss, k - 1);
      AnnouncementStep(ss[k - 1], h[k - 1]);
    }
  }

  // While the link is announced up a client is owned; when that client is
  // retired, the very next event announces the link down.
  lemma UpMeansOwned(h: seq<Event>, ss: seq<State>, k: nat)
    requires Run(h, ss) && k <= |h| && ss[k].up
    ensures !ss[k].owner.Nobody? || (k > 0 && h[k - 1].Retired?)
    ensures ss[k].owner.Nobody? && k < |h| ==> h[k] == Announced(false)
  {
    if k < |h| {
      assert Enabled(ss[k], h[k]);
    }
    if k > 0 {
      assert Enabled(ss[k - 1], h[k - 1]);
    }
  }

  // ---- The mutex ----------------------------------------------------------

  ghost predicate NoRelease(h: seq<Event>, i: nat, j: nat) {
    forall k :: i < k < j && k < |h| ==> !h[k].Released?
  }

  lemma {:induction false} HeldUntilReleased(h: seq<Event>, ss: seq<State>, i: nat, k: nat)
    requires Run(h, ss)
    requires i < k <= |h| && h[i].Acquired? && NoRelease(h, i, k)
    ensures ss[k].holder == Some(h[i].op)
  {
    if k > i + 1 {
      HeldUntilReleased(h, ss, i, k - 1);
      assert Enabled(ss[k - 1], h[k - 1]);
    }
  }

  // Two operations never overlap: an explicit control that arrives during an
  // inventory read begins only after that read, its teardown included, ended.
  lemma MutualExclusion(h: seq<Event>, ss: seq<State>, i: nat, j: nat)
    requires Run(h, ss)
    requires i < j < |h| && h[i].Acquired? && h[j].Acquired?
    ensures exists k :: i < k < j && h[k].Released?
  {
    assert Enabled(ss[j], h[j]);
    if NoRelease(h, i, j) {
      HeldUntilReleased(h, ss, i, j);
    }
  }

  // Every event of an operation lies between its Acquired and its Released.
  lemma {:induction false} HolderAcquired(h: seq<Event>, ss: seq<State>, k: nat) returns (i: nat)
    requires Run(h, ss) && k <= |h| && ss[k].holder.Some?
    ensures i < k && h[i] == Acquired(ss[k].holder.value) && NoRelease(h, i, k)
  {
    assert k > 0;
    assert Enabled(ss[k - 1], h[k - 1]);
    if h[k - 1].Acquired? {
      i := k - 1;
    } else {
      assert ss[k - 1].holder == ss[k].holder;
      i := HolderAcquired(h, ss, k - 1);
    }
  }

  lemma {:induction false} SerialGrows(h: seq<Event>, ss: seq<State>, i: nat, j: nat)
    requires Run(h, ss) && i <= j <= |h|
    ensures ss[i].serial <= ss[j].serial
    ensures i < j && h[i].Acquired? ==> ss[i].serial < ss[j].serial
  {
    hide Enabled, NextAcquisition, NextAttempt, NextOwner, NextTeardown, NextClean;
    if i < j {
      SerialGrows(h, ss, i, j - 1);
    }
  }

  // The mutex was never released between b and k if it is held at k and was
  // not acquired again.
  lemma SameHold(h: seq<Event>, ss: seq<State>, b: nat, k: nat)
    requires Run(h, ss)
    requires b < k <= |h| && h[b].Acquired? && ss[k].holder.Some?
    requires ss[b + 1].serial == ss[k].serial
    ensures NoRelease(h, b, k)
  {
    hide Apply, Enabled;
    var i := HolderAcquired(h, ss, k);
    if i < b {
      HeldUntilReleased(h, ss, i, b);
      NotAcquired(ss[b], h[b]);
    } else if b < i {
      SerialGrows(h, ss, b + 1, i);
      SerialGrows(h, ss, i, k);
    }
  }

  lemma {:induction false} Deterministic(h: seq<Event>, ss: seq<State>, h': seq<Event>, ss': seq<State>, k: nat)
    requires Run(h, ss) && Run(h', ss') && h <= h' && k <= |h|
    ensures ss[k] == ss'[k]
  {
    hide Apply, Enabled;
    if k > 0 {
      Deterministic(h, ss, h', ss', k - 1);
      assert h[k - 1] == h'[k - 1];
    }
  }

  // From the mutex's acquisition in state s to a later state s' of the same
  // hold, the mutex was never released.
  lemma HeldThroughout(h: seq<Event>, s: State, h': seq<Event>, s': State)
    requires Accepts(h, s) && Accepts(h', s') && h <= h'
    requires |h| > 0 && h[|h| - 1].Acquired?
    requires s'.holder.Some? && s'.serial == s.serial
    ensures NoRelease(h', |h| - 1, |h'|)
  {
    hide Apply, Enabled;
    var ss :| Run(h, ss) && ss[|h|] == s;
    var ss' :| Run(h', ss') && ss'[|h'|] == s';
    Deterministic(h, ss, h', ss', |h|);
    SameHold(h', ss', |h| - 1, |h'|);
  }

  // ---- Control requests ---------------------------------------------------

  ghost predicate Occurs(h: seq<Event>, i: nat, j: nat, e: Event) {
    exists k :: i < k < j && k < |h| && h[k] == e
  }

  ghost predicate AtMostOnce(h: seq<Event>, i: nat, j: nat, e: Event) {
    forall m, n :: i < m < j && m < |h| && h[m] == e && i < n < j && n < |h| && h[n] == e ==> m == n
  }

  ghost predicate Writes(h: seq<Event>, i: nat, j: nat) {
    exists k :: i < k < j && k < |h| && h[k].ControlWritten?
  }

  ghost predicate WritesOnce(h: seq<Event>, i: nat, j: nat) {
    forall m, n :: i < m < j && m < |h| && h[m].ControlWritten? && i < n < j && n < |h| && h[n].ControlWritten? ==>
      m == n
  }

  // Every control write carries the opcode that was asked for.
  ghost predicate WritesOnly(h: seq<Event>, i: nat, j: nat, action: Action) {
    forall k :: i < k < j && k < |h| && h[k].ControlWritten? ==>
      match action
      case Lock => h[k].command == LockBolt
      case Unlock => h[k].command == UnlockBolt
  }

  // After the write of this request a query reported the commanded state.
  ghost predicate ConfirmedByQuery(h: seq<Event>, i: nat, j: nat, action: Action) {
    exists m, n :: i < m < n < j && n < |h| && h[m].ControlWritten? && h[n] == StateRead(Some(action.Lock?))
  }

  // How one event inside an operation changes what is known of its attempt.
  predicate Follows(a: Attempt, b: Attempt, e: Event) {
    && (b.started <==> a.started || e.OperationStarted?)
    && (b.written <==> a.written || e.ControlWritten?)
    && (b.matched <==> a.matched || e.ReplyMatched?)
    && (b.accepted <==> a.accepted || e.ReplyAccepted?)
    && (b.rejected <==> a.rejected || e.ReplyRejected?)
    && (b.running <==> (a.running || e.OperationStarted?) && !e.OperationEnded?)
    && (b.withdrawn <==> a.withdrawn || (e.Interrupted? && a.running && !a.written))
  }

  lemma NextFollows(a: Attempt, op: Option<Op>, interruptions: nat, e: Event)
    requires !e.Acquired? && !e.Released?
    ensures Follows(a, NextAttempt(a, op, interruptions, e), e)
  {
  }

  lemma AttemptIs(s: State, e: Event)
    requires Enabled(s, e)
    ensures Apply(s, e).attempt == NextAttempt(s.attempt, s.holder, s.interruptions, e)
  {
    hide Enabled, NextAttempt, NextAcquisition, NextOwner, NextTeardown, NextClean, NextGate, NextWork, NextRequested;
  }

  lemma AttemptStep(s: State, e: Event)
    requires Enabled(s, e) && !e.Acquired? && !e.Released?
    ensures Follows(s.attempt, Apply(s, e).attempt, e)
  {
    hide Apply, Enabled, NextAttempt, Follows;
    AttemptIs(s, e);
    NextFollows(s.attempt, s.holder, s.interruptions, e);
  }

  lemma AttemptGuards(s: State, e: Event)
    requires Enabled(s, e) && !e.Acquired? && !e.Released?
    ensures e.OperationStarted? ==> !s.attempt.started
    ensures e.ControlWritten? ==> !s.attempt.written && s.attempt.running && !s.attempt.withdrawn
    ensures e.OperationEnded? ==> s.attempt.running
    ensures e.ReplyMatched? ==> s.attempt.written
    ensures e.ReplyAccepted? || e.ReplyRejected? ==> s.attempt.matched
    ensures Apply(s, e).attempt.reconciling ==> s.attempt.reconciling || s.attempt.written
    ensures Apply(s, e).attempt.confirmed && !s.attempt.confirmed ==>
              && s.attempt.reconciling
              && e.StateRead? && s.holder.Some? && Commanded(s.holder.value, e.locked)
  {
    hide Apply;
    AttemptIs(s, e);
  }

  lemma AttemptGuardsHolder(s: State, e: Event)
    requires Enabled(s, e)
    ensures e.ControlWritten? || e.OperationStarted? ==> s.holder.Some?
    ensures e.ControlWritten? || e.OperationStarted? ==> s.holder.value.Control?
  {
  }

  lemma AttemptFresh(s: State, e: Event)
    requires Enabled(s, e) && e.Acquired?
    ensures Apply(s, e).attempt == NO_ATTEMPT
  {
  }

  lemma NotAcquired(s: State, e: Event)
    requires Enabled(s, e) && s.holder.Some?
    ensures !e.Acquired?
  {
  }

  ghost predicate AttemptAgrees(h: seq<Event>, i: nat, k: nat, a: Attempt) {
    && (a.started <==> Occurs(h, i, k, OperationStarted))
    && (a.written <==> Writes(h, i, k))
    && (a.matched <==> Occurs(h, i, k, ReplyMatched))
    && (a.rejected || a.accepted ==> a.matched)
    && (a.matched ==> a.written)
    && (a.accepted <==> Occurs(h, i, k, ReplyAccepted))
    && (a.rejected <==> Occurs(h, i, k, ReplyRejected))
    && (a.running <==> a.started && !Occurs(h, i, k, OperationEnded))
    && (a.running || a.written || Occurs(h, i, k, OperationEnded) ==> a.started)
    && (a.reconciling ==> a.written)
  }

  lemma OccursStep(h: seq<Event>, i: nat, k: nat, e: Event)
    requires i < k < |h|
    ensures Occurs(h, i, k + 1, e) <==> Occurs(h, i, k, e) || h[k] == e
  {
  }

  lemma WritesStep(h: seq<Event>, i: nat, k: nat)
    requires i < k < |h|
    ensures Writes(h, i, k + 1) <==> Writes(h, i, k) || h[k].ControlWritten?
  {
  }

  lemma AgreesFresh(h: seq<Event>, i: nat, s: State)
    requires i < |h| && Enabled(s, h[i]) && h[i].Acquired?
    ensures AttemptAgrees(h, i, i + 1, Apply(s, h[i]).attempt)
  {
    hide Enabled;
    AttemptFresh(s, h[i]);
  }

  // One step of AttemptTracked, on the two attempts alone.
  lemma AgreesStep(h: seq<Event>, i: nat, k: nat, s: State)
    requires i < k < |h| && Enabled(s, h[k]) && !h[k].Acquired? && !h[k].Released?
    requires AttemptAgrees(h, i, k, s.attempt)
    ensures AttemptAgrees(h, i, k + 1, Apply(s, h[k]).attempt)
  {
    hide Apply, Enabled;
    AttemptStep(s, h[k]);
    AttemptGuards(s, h[k]);
    OccursStep(h, i, k, OperationStarted);
    WritesStep(h, i, k);
    OccursStep(h, i, k, ReplyMatched);
    OccursStep(h, i, k, ReplyAccepted);
    OccursStep(h, i, k, ReplyRejected);
    OccursStep(h, i, k, OperationEnded);
  }

  lemma {:induction false} AttemptTracked(h: seq<Event>, ss: seq<State>, i: nat, k: nat)
    requires Run(h, ss)
    requires i < k <= |h| && h[i].Acquired? && NoRelease(h, i, k)
    ensures AttemptAgrees(h, i, k, ss[k].attempt)
  {
    hide Apply, Enabled;
    hide AttemptAgrees;
    if k == i + 1 {
      AgreesFresh(h, i, ss[i]);
    } else {
      AttemptTracked(h, ss, i, k - 1);
      HeldUntilReleased(h, ss, i, k - 1);
      NotAcquired(ss[k - 1], h[k - 1]);
      AgreesStep(h, i, k - 1, ss[k - 1]);
    }
  }

  // At most one physical operation and one control write in each hold.
  lemma SentOnce(h: seq<Event>, ss: seq<State>, i: nat, k: nat)
    requires Run(h, ss)
    requires i < k <= |h| && h[i].Acquired? && NoRelease(h, i, k)
    ensures AtMostOnce(h, i, k, OperationStarted) && WritesOnce(h, i, k)
  {
    hide Run;
    forall n | i < n < k && (h[n].OperationStarted? || h[n].ControlWritten?)
      ensures h[n].OperationStarted? ==> !Occurs(h, i, n, OperationStarted)
      ensures h[n].ControlWritten? ==> !Writes(h, i, n)
    {
      NotSentBefore(h, ss, i, n);
    }
  }

  lemma NotSentBefore(h: seq<Event>, ss: seq<State>, i: nat, k: nat)
    requires Run(h, ss)
    requires i < k < |h| && h[i].Acquired? && NoRelease(h, i, k)
    ensures h[k].OperationStarted? ==> !Occurs(h, i, k, OperationStarted)
    ensures h[k].ControlWritten? ==> !Writes(h, i, k)
  {
    hide Apply, Enabled;
    AttemptTracked(h, ss, i, k);
    if h[k].OperationStarted? || h[k].ControlWritten? {
      AttemptGuards(ss[k], h[k]);
    }
  }

  lemma CommandStep(s: State, e: Event)
    requires Enabled(s, e) && e.ControlWritten? && s.holder.Some? && s.holder.value.Control?
    ensures match s.holder.value.action
            case Lock => e.command == LockBolt
            case Unlock => e.command == UnlockBolt
  {
  }

  // A lock request writes the lock opcode, an unlock request the unlock opcode.
  lemma CommandIsAction(h: seq<Event>, ss: seq<State>, i: nat, k: nat, action: Action)
    requires Run(h, ss)
    requires i < k <= |h| && h[i] == Acquired(Control(action)) && NoRelease(h, i, k)
    ensures WritesOnly(h, i, k, action)
  {
    hide Apply, Enabled;
    forall m | i < m < k && h[m].ControlWritten?
      ensures match action case Lock => h[m].command == LockBolt case Unlock => h[m].command == UnlockBolt
    {
      HeldUntilReleased(h, ss, i, m);
      CommandStep(ss[m], h[m]);
    }
  }

  lemma {:induction false} StaysWithdrawn(h: seq<Event>, ss: seq<State>, i: nat, m: nat, k: nat)
    requires Run(h, ss)
    requires i < m < k <= |h| && h[i].Acquired? && NoRelease(h, i, k) && ss[m + 1].attempt.withdrawn
    ensures ss[k].attempt.withdrawn
  {
    hide Apply, Enabled;
    if k > m + 1 {
      StaysWithdrawn(h, ss, i, m, k - 1);
      HeldUntilReleased(h, ss, i, k - 1);
      NotAcquired(ss[k - 1], h[k - 1]);
      AttemptStep(ss[k - 1], h[k - 1]);
    }
  }

  // A request whose operation is under way and has not written when its
  // cancellation arrives never writes.
  lemma WithdrawnNeverWrites(h: seq<Event>, ss: seq<State>, i: nat, m: nat, k: nat)
    requires Run(h, ss)
    requires i < m < k <= |h| && h[i].Acquired? && NoRelease(h, i, k) && h[m] == Interrupted
    requires Occurs(h, i, m, OperationStarted) && !Occurs(h, i, m, OperationEnded) && !Writes(h, i, m)
    ensures !Writes(h, i, k)
    ensures ss[k].attempt.withdrawn
  {
    hide Apply, Enabled;
    AttemptTracked(h, ss, i, m);
    AttemptStep(ss[m], h[m]);
    StaysWithdrawn(h, ss, i, m, k);
    forall n | i < n < k
      ensures !h[n].ControlWritten?
    {
      if n > m {
        StaysWithdrawn(h, ss, i, m, n);
        HeldUntilReleased(h, ss, i, n);
        NotAcquired(ss[n], h[n]);
        AttemptGuards(ss[n], h[n]);
      }
    }
  }

  lemma WithdrawnGuard(s: State, e: Event)
    requires Enabled(s, e) && e.Released? && s.attempt.withdrawn && s.holder.Some? && s.holder.value.Control?
    ensures (s.attempt.accepted || s.attempt.confirmed || s.attempt.written) || e.verdict.Aborted?
    ensures s.owner.Installed?
  {
  }

  lemma UnwrittenIsOpen(h: seq<Event>, i: nat, j: nat, a: Attempt, action: Action)
    requires AttemptAgrees(h, i, j, a) && !Writes(h, i, j)
    ensures !a.written && !a.accepted && !ConfirmedByQuery(h, i, j, action)
  {
  }

  // ... and is reported as cancelled, with its session kept.
  lemma WithdrawnIsAborted(
    h: seq<Event>, ss: seq<State>, i: nat, m: nat, j: nat, action: Action, verdict: Verdict)
    requires Run(h, ss)
    requires i < m < j < |h| && NoRelease(h, i, j) && h[m] == Interrupted
    requires h[i] == Acquired(Control(action)) && h[j] == Released(verdict)
    requires Occurs(h, i, m, OperationStarted) && !Occurs(h, i, m, OperationEnded) && !Writes(h, i, m)
    ensures verdict.Aborted? && ss[j].owner.Installed?
  {
    hide Apply, Enabled, AttemptAgrees, Occurs, Writes, ConfirmedByQuery;
    WithdrawnNeverWrites(h, ss, i, m, j);
    HeldUntilReleased(h, ss, i, j);
    AttemptTracked(h, ss, i, j);
    ConfirmationTracked(h, ss, i, j, action);
    UnwrittenIsOpen(h, i, j, ss[j].attempt, action);
    WithdrawnGuard(ss[j], h[j]);
  }

  lemma ReconcilesAfterWrite(h: seq<Event>, ss: seq<State>, i: nat, k: nat)
    requires Run(h, ss)
    requires i < k <= |h| && h[i].Acquired? && NoRelease(h, i, k) && ss[k].attempt.reconciling
    ensures Writes(h, i, k)
  {
    hide Apply, Enabled, Run;
    AttemptTracked(h, ss, i, k);
  }

  // The moment a request counts as confirmed.
  lemma ConfirmingStep(h: seq<Event>, ss: seq<State>, i: nat, k: nat, action: Action)
    requires Run(h, ss)
    requires i < k < |h| && h[i] == Acquired(Control(action)) && NoRelease(h, i, k + 1)
    requires ss[k + 1].attempt.confirmed && !ss[k].attempt.confirmed
    ensures ConfirmedByQuery(h, i, k + 1, action)
  {
    hide Apply, Enabled;
    HeldUntilReleased(h, ss, i, k);
    NotAcquired(ss[k], h[k]);
    AttemptGuards(ss[k], h[k]);
    ReconcilesAfterWrite(h, ss, i, k);
    assert h[k] == StateRead(Some(action.Lock?));
  }

  lemma ConfirmedStays(s: State, e: Event)
    requires Enabled(s, e) && !e.Acquired? && !e.Released?
    ensures s.attempt.confirmed ==> Apply(s, e).attempt.confirmed
  {
    hide Apply, Enabled;
    AttemptIs(s, e);
  }

  lemma ConfirmingRead(s: State, e: Event)
    requires Enabled(s, e) && e.StateRead? && s.holder.Some? && Commanded(s.holder.value, e.locked)
    ensures Apply(s, e).attempt.confirmed
  {
    hide Apply;
    AttemptIs(s, e);
  }

  // A request counts as confirmed exactly when, after its write, a query
  // reported the commanded position.
  lemma {:induction false} ConfirmationTracked(h: seq<Event>, ss: seq<State>, i: nat, k: nat, action: Action)
    requires Run(h, ss)
    requires i < k <= |h| && h[i] == Acquired(Control(action)) && NoRelease(h, i, k)
    ensures ss[k].attempt.confirmed <==> ConfirmedByQuery(h, i, k, action)
  {
    hide Apply, Enabled;
    if k == i + 1 {
      AttemptFresh(ss[i], h[i]);
    } else {
      ConfirmationTracked(h, ss, i, k - 1, action);
      HeldUntilReleased(h, ss, i, k - 1);
      NotAcquired(ss[k - 1], h[k - 1]);
      ConfirmedStays(ss[k - 1], h[k - 1]);
      if h[k - 1] == StateRead(Some(action.Lock?)) {
        ConfirmingRead(ss[k - 1], h[k - 1]);
      }
      if ss[k].attempt.confirmed && !ss[k - 1].attempt.confirmed {
        ConfirmingStep(h, ss, i, k - 1, action);
      }
    }
  }

  // Every reconciliation begun between i and k has ended before k.
  ghost predicate ReconciliationsEnd(h: seq<Event>, i: nat, k: nat) {
    forall m :: i < m < k && m < |h| && h[m] == ReconciliationStarted ==> Occurs(h, m, k, ReconciliationEnded)
  }

  lemma ReconcilingStep(s: State, e: Event)
    requires Enabled(s, e) && !e.Acquired? && !e.Released?
    ensures Apply(s, e).attempt.reconciling <==>
              e.ReconciliationStarted? || (s.attempt.reconciling && !e.ReconciliationEnded?)
    ensures Apply(s, e).attempt.reconciled <==> s.attempt.reconciled || e.ReconciliationEnded?
  {
    hide Apply, Enabled;
    AttemptIs(s, e);
  }

  lemma ReconciliationGuard(s: State, e: Event)
    requires Enabled(s, e)
    ensures e.ReconciliationEnded? ==> s.attempt.reconciling
  {
  }

  lemma ReconciliationsStep(h: seq<Event>, i: nat, k: nat)
    requires i < k < |h|
    ensures h[k] == ReconciliationEnded ==> ReconciliationsEnd(h, i, k + 1)
    ensures h[k] != ReconciliationStarted && ReconciliationsEnd(h, i, k) ==> ReconciliationsEnd(h, i, k + 1)
  {
    forall m | i < m < k
      ensures h[k] == ReconciliationEnded ==> Occurs(h, m, k + 1, ReconciliationEnded)
      ensures Occurs(h, m, k, ReconciliationEnded) ==> Occurs(h, m, k + 1, ReconciliationEnded)
    {
      OccursStep(h, m, k, ReconciliationEnded);
    }
  }

  lemma ReconciliationsBegin(h: seq<Event>, i: nat)
    ensures ReconciliationsEnd(h, i, i + 1)
    ensures !Occurs(h, i, i + 1, ReconciliationStarted) && !Occurs(h, i, i + 1, ReconciliationEnded)
  {
  }

  // One event inside a hold.
  lemma HeldStep(h: seq<Event>, ss: seq<State>, i: nat, k: nat)
    requires Run(h, ss)
    requires i < k < |h| && h[i].Acquired? && NoRelease(h, i, k + 1)
    ensures |ss| == |h| + 1 && Enabled(ss[k], h[k]) && ss[k + 1] == Apply(ss[k], h[k])
    ensures !h[k].Acquired? && !h[k].Released?
    ensures ss[k].holder == Some(h[i].op)
  {
    hide Apply, Enabled;
    HeldUntilReleased(h, ss, i, k);
    NotAcquired(ss[k], h[k]);
  }

  lemma {:induction false} ReconciliationTracked(h: seq<Event>, ss: seq<State>, i: nat, k: nat)
    requires Run(h, ss)
    requires i < k <= |h| && h[i].Acquired? && NoRelease(h, i, k)
    ensures !ss[k].attempt.reconciling ==> ReconciliationsEnd(h, i, k)
    ensures ss[k].attempt.reconciled <==> Occurs(h, i, k, ReconciliationEnded)
    ensures ss[k].attempt.reconciling || ss[k].attempt.reconciled <==> Occurs(h, i, k, ReconciliationStarted)
  {
    hide Apply, Enabled, ReconciliationsEnd, Occurs, Run;
    if k == i + 1 {
      FreshAt(h, ss, i);
      ReconciliationsBegin(h, i);
    } else {
      ReconciliationTracked(h, ss, i, k - 1);
      HeldStep(h, ss, i, k - 1);
      ReconcilingStep(ss[k - 1], h[k - 1]);
      ReconciliationGuard(ss[k - 1], h[k - 1]);
      OccursStep(h, i, k - 1, ReconciliationEnded);
      OccursStep(h, i, k - 1, ReconciliationStarted);
      ReconciliationsStep(h, i, k - 1);
    }
  }

  lemma FreshAt(h: seq<Event>, ss: seq<State>, i: nat)
    requires Run(h, ss) && i < |h| && h[i].Acquired?
    ensures |ss| == |h| + 1 && ss[i + 1].attempt == NO_ATTEMPT
  {
    hide Apply, Enabled;
    AttemptFresh(ss[i], h[i]);
  }

  lemma ReconcilesOnce(h: seq<Event>, ss: seq<State>, i: nat, k: nat)
    requires Run(h, ss)
    requires i < k <= |h| && h[i].Acquired? && NoRelease(h, i, k)
    ensures AtMostOnce(h, i, k, ReconciliationStarted)
  {
    hide Run;
    forall n | i < n < k && h[n] == ReconciliationStarted
      ensures !Occurs(h, i, n, ReconciliationStarted)
    {
      NotReconciledBefore(h, ss, i, n);
    }
  }

  lemma NotReconciledBefore(h: seq<Event>, ss: seq<State>, i: nat, k: nat)
    requires Run(h, ss)
    requires i < k < |h| && h[i].Acquired? && NoRelease(h, i, k) && h[k] == ReconciliationStarted
    ensures !Occurs(h, i, k, ReconciliationStarted)
  {
    hide Apply, ReconciliationsEnd, Occurs;
    ReconciliationTracked(h, ss, i, k);
    assert Enabled(ss[k], h[k]);
  }

  lemma InterruptionsStep(s: State, e: Event)
    requires Enabled(s, e)
    ensures e.Acquired? ==> Apply(s, e).interruptions == 0
    ensures !e.Acquired? ==> Apply(s, e).interruptions == s.interruptions + (if e.Interrupted? then 1 else 0)
  {
    hide Enabled, NextAttempt, NextAcquisition, NextOwner, NextTeardown, NextClean, NextGate, NextWork, NextRequested;
  }

  lemma StepAt(h: seq<Event>, ss: seq<State>, k: nat)
    requires Run(h, ss) && k < |h|
    ensures |ss| == |h| + 1 && Enabled(ss[k], h[k]) && ss[k + 1] == Apply(ss[k], h[k])
  {
    hide Apply, Enabled;
  }

  lemma {:induction false} InterruptsTracked(h: seq<Event>, ss: seq<State>, i: nat, k: nat)
    requires Run(h, ss)
    requires i < k <= |h| && h[i].Acquired? && NoRelease(h, i, k)
    ensures |ss| == |h| + 1 && (Interrupts(ss[k]) <==> Occurs(h, i, k, Interrupted))
  {
    hide Apply, Enabled, Run;
    StepAt(h, ss, k - 1);
    InterruptionsStep(ss[k - 1], h[k - 1]);
    if k > i + 1 {
      InterruptsTracked(h, ss, i, k - 1);
      HeldStep(h, ss, i, k - 1);
      OccursStep(h, i, k - 1, Interrupted);
    }
  }

  // One explicit request between its Acquired at i and its Released at j: at
  // most one physical operation, one control write, of the asked opcode, and
  // one reconciliation, which have ended before the mutex is free; and what the
  // caller is told is what happened.
  ghost predicate ToldTruly(h: seq<Event>, i: nat, j: nat, action: Action, verdict: Verdict) {
    && AtMostOnce(h, i, j, OperationStarted) && AtMostOnce(h, i, j, ReconciliationStarted)
    && WritesOnce(h, i, j) && WritesOnly(h, i, j, action)
    && (Writes(h, i, j) ==> Occurs(h, i, j, OperationStarted))
    && (Occurs(h, i, j, OperationStarted) ==> Occurs(h, i, j, OperationEnded))
    && ReconciliationsEnd(h, i, j)
    && match verdict
       case Completed =>
         || (Writes(h, i, j) && Occurs(h, i, j, ReplyMatched) && Occurs(h, i, j, ReplyAccepted))
         || ConfirmedByQuery(h, i, j, action)
       case OutcomeUnknown =>
         && Writes(h, i, j) && Occurs(h, i, j, ReconciliationEnded)
         && !Occurs(h, i, j, ReplyAccepted) && !Occurs(h, i, j, ReplyRejected)
         && !ConfirmedByQuery(h, i, j, action)
       case Refused =>
         && (Writes(h, i, j) ==> Occurs(h, i, j, ReplyMatched) && Occurs(h, i, j, ReplyRejected))
         && !Occurs(h, i, j, ReplyAccepted) && !ConfirmedByQuery(h, i, j, action)
       case Aborted =>
         && (Writes(h, i, j) ==> Occurs(h, i, j, ReplyMatched) && Occurs(h, i, j, ReplyRejected))
         && !Occurs(h, i, j, ReplyAccepted) && !ConfirmedByQuery(h, i, j, action)
         && Occurs(h, i, j, Interrupted)
       case _ => false
  }

  lemma ControlIsTruthful(h: seq<Event>, ss: seq<State>, i: nat, j: nat, action: Action, verdict: Verdict)
    requires Run(h, ss)
    requires i < j < |h| && NoRelease(h, i, j)
    requires h[i] == Acquired(Control(action)) && h[j] == Released(verdict)
    ensures ToldTruly(h, i, j, action, verdict)
  {
    hide Apply;
    HeldUntilReleased(h, ss, i, j);
    AttemptTracked(h, ss, i, j);
    ReconciliationTracked(h, ss, i, j);
    SentOnce(h, ss, i, j);
    ReconcilesOnce(h, ss, i, j);
    CommandIsAction(h, ss, i, j, action);
    ConfirmationTracked(h, ss, i, j, action);
    assert Enabled(ss[j], h[j]);
    InterruptsTracked(h, ss, i, j);
  }

  lemma RequestIsTruthful(h: seq<Event>, s: State, i: nat, j: nat, action: Action, verdict: Verdict)
    requires Accepts(h, s)
    requires i < j < |h| && NoRelease(h, i, j)
    requires h[i] == Acquired(Control(action)) && h[j] == Released(verdict)
    ensures ToldTruly(h, i, j, action, verdict)
  {
    hide ToldTruly, Apply, Enabled;
    var ss :| Run(h, ss) && ss[|h|] == s;
    ControlIsTruthful(h, ss, i, j, action, verdict);
  }

  lemma RunsSince(h: seq<Event>, i: nat, k: nat, a: Attempt) returns (m: nat)
    requires AttemptAgrees(h, i, k, a) && a.running && k <= |h|
    ensures i < m < k && h[m] == OperationStarted && !Occurs(h, m, k, OperationEnded)
  {
    m :| i < m < k && m < |h| && h[m] == OperationStarted;
  }

  // Control writes occur in control requests only, after their operation
  // started, and with its opcode: a reconciliation, a query or a read never
  // writes.
  lemma WritesBelongToControls(h: seq<Event>, ss: seq<State>, k: nat) returns (i: nat, m: nat)
    requires Run(h, ss) && k < |h| && h[k].ControlWritten?
    ensures i < m < k && NoRelease(h, i, k)
    ensures h[k].command == LockBolt ==> h[i] == Acquired(Control(Lock))
    ensures h[k].command == UnlockBolt ==> h[i] == Acquired(Control(Unlock))
    ensures h[k].command == LockBolt || h[k].command == UnlockBolt
    ensures h[m] == OperationStarted && !Occurs(h, m, k, OperationEnded)
  {
    hide Apply, Enabled, AttemptAgrees, Occurs;
    AttemptGuardsHolder(ss[k], h[k]);
    i := HolderAcquired(h, ss, k);
    AttemptTracked(h, ss, i, k);
    AttemptGuards(ss[k], h[k]);
    m := RunsSince(h, i, k, ss[k].attempt);
    CommandStep(ss[k], h[k]);
  }

  // ---- Reconciliation -----------------------------------------------------

  // What a reconciliation rests on: an answer or a failed query, a replacement
  // that was not found, or an interruption.
  predicate Resolves(e: Event) {
    e.StateRead? || e.QueryFailed? || e == AcquisitionEnded(false) || e.Interrupted?
  }

  // What shows that the client it asks is connected.
  predicate ShowsConnected(e: Event) {
    e == LinkSeen(true) || e == AcquisitionEnded(true)
  }

  ghost predicate Resolved(h: seq<Event>, m: nat, k: nat) {
    exists t :: m < t < k && t < |h| && Resolves(h[t])
  }

  ghost predicate SeenConnected(h: seq<Event>, m: nat, k: nat) {
    exists t :: m < t < k && t < |h| && ShowsConnected(h[t])
  }

  predicate HasResolved(s: State) {
    s.attempt.asked || s.search.NotFound? || s.interruptions > s.attempt.since
  }

  predicate MayAskNow(s: State) {
    s.attempt.linked == Some(true) || s.search.Found?
  }

  lemma SearchIs(s: State, e: Event)
    requires Enabled(s, e)
    ensures Apply(s, e).search == NextSearch(s.search, s.attempt.reconciling, e)
  {
    hide Enabled, NextAttempt, NextAcquisition, NextOwner, NextTeardown, NextClean, NextGate, NextWork, NextRequested;
    hide NextSearch;
  }

  // How one event other than its end changes a reconciliation.
  lemma ResolvingStep(s: State, e: Event)
    requires Enabled(s, e) && !e.Acquired? && !e.Released?
    requires s.attempt.reconciling && !e.ReconciliationEnded?
    ensures !e.ReconciliationStarted? && Apply(s, e).attempt.reconciling
    ensures HasResolved(Apply(s, e)) ==> HasResolved(s) || Resolves(e)
    ensures MayAskNow(Apply(s, e)) ==> MayAskNow(s) || ShowsConnected(e)
  {
    hide Apply;
    AttemptIs(s, e);
    SearchIs(s, e);
    InterruptionsStep(s, e);
  }

  lemma ReconciliationFresh(s: State, e: Event)
    requires Enabled(s, e) && e.ReconciliationStarted?
    ensures Apply(s, e).attempt.reconciling && !HasResolved(Apply(s, e)) && !MayAskNow(Apply(s, e))
  {
    hide Apply, Enabled;
    AttemptIs(s, e);
    SearchIs(s, e);
    InterruptionsStep(s, e);
  }

  // A reconciliation that has not ended keeps the mutex.
  lemma ReleaseGuard(s: State, e: Event)
    requires Enabled(s, e) && s.attempt.reconciling
    ensures !e.Released? && (s.holder.Some? ==> !e.Acquired?)
  {
  }

  // Only a control request writes and reconciles.
  predicate ControlHolds(s: State) {
    s.attempt.written || s.attempt.reconciling ==> s.holder.Some? && s.holder.value.Control?
  }

  lemma ControlHoldsStep(s: State, e: Event)
    requires Enabled(s, e) && ControlHolds(s)
    ensures ControlHolds(Apply(s, e))
  {
    hide NextAcquisition, NextOwner, NextTeardown, NextClean, NextGate, NextWork, NextRequested, NextSearch;
  }

  lemma {:induction false} WriterHolds(h: seq<Event>, ss: seq<State>, k: nat)
    requires Run(h, ss) && k <= |h|
    ensures |ss| == |h| + 1 && ControlHolds(ss[k])
  {
    hide Apply, Enabled;
    if k > 0 {
      WriterHolds(h, ss, k - 1);
      ControlHoldsStep(ss[k - 1], h[k - 1]);
    }
  }

  lemma {:induction false} ReconcilingTracked(h: seq<Event>, ss: seq<State>, m: nat, k: nat)
    requires Run(h, ss)
    requires m < k <= |h| && h[m] == ReconciliationStarted && !Occurs(h, m, k, ReconciliationEnded)
    ensures |ss| == |h| + 1 && ss[k].attempt.reconciling
    ensures HasResolved(ss[k]) ==> Resolved(h, m, k)
    ensures MayAskNow(ss[k]) ==> SeenConnected(h, m, k)
  {
    hide Apply, Enabled, Run, HasResolved, MayAskNow, Resolves, ShowsConnected;
    StepAt(h, ss, k - 1);
    if k == m + 1 {
      ReconciliationFresh(ss[m], h[m]);
    } else {
      ReconcilingTracked(h, ss, m, k - 1);
      WriterHolds(h, ss, k - 1);
      ReleaseGuard(ss[k - 1], h[k - 1]);
      ResolvingStep(ss[k - 1], h[k - 1]);
    }
  }

  lemma ResolvedGuard(s: State, e: Event)
    requires Enabled(s, e) && s.attempt.reconciling
    ensures e.ReconciliationEnded? ==> HasResolved(s)
  {
  }

  lemma AskGuard(s: State, e: Event)
    requires Enabled(s, e) && s.holder.Some? && s.holder.value.Control?
    ensures e.StateRead? || e.QueryFailed? ==> MayAskNow(s)
  {
  }

  // A reconciliation ends only once a query was answered or failed, no
  // replacement for a dropped client was found, or it was interrupted.
  lemma ReconciliationResolves(h: seq<Event>, ss: seq<State>, m: nat, n: nat)
    requires Run(h, ss)
    requires m < n < |h| && h[m] == ReconciliationStarted && h[n] == ReconciliationEnded
    requires !Occurs(h, m, n, ReconciliationEnded)
    ensures Resolved(h, m, n)
  {
    hide Apply, Enabled, Run, HasResolved, MayAskNow;
    ReconcilingTracked(h, ss, m, n);
    StepAt(h, ss, n);
    ResolvedGuard(ss[n], h[n]);
  }

  // It asks only a client that it saw connected, or a replacement.
  lemma ReconciliationAsksConnected(h: seq<Event>, ss: seq<State>, m: nat, n: nat)
    requires Run(h, ss)
    requires m < n < |h| && h[m] == ReconciliationStarted && (h[n].StateRead? || h[n].QueryFailed?)
    requires !Occurs(h, m, n, ReconciliationEnded)
    ensures SeenConnected(h, m, n)
  {
    hide Apply, Enabled, Run, HasResolved, MayAskNow;
    ReconcilingTracked(h, ss, m, n);
    WriterHolds(h, ss, n);
    StepAt(h, ss, n);
    AskGuard(ss[n], h[n]);
  }

  // ---- Acquisitions -------------------------------------------------------

  predicate Boundary(e: Event) {
    e.AcquisitionStarted? || e.Acquired? || e.Released?
  }

  ghost predicate SameAcquisition(h: seq<Event>, i: nat, k: nat) {
    forall m :: i < m < k && m < |h| ==> !Boundary(h[m])
  }

  ghost function Scans(h: seq<Event>, i: nat, k: nat): nat
    requires i < k <= |h|
    decreases k
  {
    if k == i + 1 then 0 else Scans(h, i, k - 1) + (if h[k - 1].ScanStarted? then 1 else 0)
  }

  ghost function Connects(h: seq<Event>, i: nat, k: nat): nat
    requires i < k <= |h|
    decreases k
  {
    if k == i + 1 then 0 else Connects(h, i, k - 1) + (if h[k - 1].ConnectStarted? then 1 else 0)
  }

  // The windows that are closed were no longer than their caps.
  predicate Accounted(a: Acquisition) {
    && a.scans <= (if a.active then 1 else 0)
    && a.cachedConnects <= 1
    && a.freshConnects <= a.scans
    && match a.phase
       case Between =>
         a.inside <= 25.0 * a.scans as real + 16.0 * a.cachedConnects as real + 42.0 * a.freshConnects as real
       case Scanning(w) =>
         a.scans == 1 && a.freshConnects == 0 && w <= 25.0 && a.inside <= 16.0 * a.cachedConnects as real
       case Connecting(w) =>
         && w <= PhaseCap(a)
         && if a.scans == 1 then a.freshConnects == 1 && a.inside <= 25.0 + 16.0 * a.cachedConnects as real
            else a.cachedConnects == 1 && a.inside <= 0.0
  }

  // What ends an acquisition's policy before it is used up.
  predicate EndsPolicy(e: Event) {
    e.OutOfTime? || e.Discarded? || (e.ConnectEnded? && SetupFailure(e.ended, e.expired))
  }

  ghost predicate Excused(h: seq<Event>, i: nat, k: nat) {
    exists m :: i < m < k && m < |h| && EndsPolicy(h[m])
  }

  // The window that an event opens: when it is armed, and for how long.
  function Opens(e: Event): Option<(real, real)> {
    match e
    case ScanStarted(at, seconds) => Some((at, seconds as real))
    case ConnectStarted(_, armed, window) => Some((armed, window))
    case _ => None
  }

  predicate Closes(e: Event) {
    e.ScanEnded? || e.ConnectEnded?
  }

  // The window that is open before event k, if there is one.
  ghost function WindowAt(h: seq<Event>, i: nat, k: nat): Option<(real, real)>
    requires i < k <= |h|
    decreases k
  {
    if k == i + 1 then None
    else if Opens(h[k - 1]).Some? then Opens(h[k - 1])
    else if Closes(h[k - 1]) then None
    else WindowAt(h, i, k - 1)
  }

  // The time spent inside windows that were closed before event k.
  ghost function Inside(h: seq<Event>, i: nat, k: nat): real
    requires i < k <= |h|
    decreases k
  {
    if k == i + 1 then 0.0
    else Inside(h, i, k - 1) + InsideLast(WindowAt(h, i, k - 1), h[k - 1])
  }

  function InsideLast(open: Option<(real, real)>, e: Event): real {
    if Closes(e) && open.Some? then Min(e.at - open.value.0, open.value.1) else 0.0
  }

  function OpenWindowOf(a: Acquisition): Option<(real, real)> {
    match a.phase
    case Between => None
    case Scanning(w) => Some((a.last, w))
    case Connecting(w) => Some((a.last, w))
  }

  // How one event changes the open window, the time inside windows, and
  // whether the policy was ended.
  lemma WindowStep(s: State, e: Event)
    requires Enabled(s, e) && !Boundary(e) && s.acquisition.Some?
    ensures NextAcquisition(s, e).Some?
    ensures var a, b := s.acquisition.value, NextAcquisition(s, e).value;
            && OpenWindowOf(b) == (if Opens(e).Some? then Opens(e) else if Closes(e) then None else OpenWindowOf(a))
            && b.inside == a.inside + InsideLast(OpenWindowOf(a), e)
            && (b.stopped <==> a.stopped || EndsPolicy(e))
  {
  }

  lemma AcquisitionCounts(s: State, e: Event)
    requires Enabled(s, e) && !Boundary(e) && s.acquisition.Some?
    ensures NextAcquisition(s, e).Some?
    ensures var a, b := s.acquisition.value, NextAcquisition(s, e).value;
            && b.active == a.active && b.started == a.started && b.budget == a.budget
            && b.scans == a.scans + (if e.ScanStarted? then 1 else 0)
            && b.cachedConnects + b.freshConnects
               == a.cachedConnects + a.freshConnects + (if e.ConnectStarted? then 1 else 0)
  {
  }

  lemma AcquisitionAccounted(s: State, e: Event)
    requires Enabled(s, e) && !Boundary(e)
    requires s.acquisition.Some? && Accounted(s.acquisition.value)
    ensures NextAcquisition(s, e).Some? && Accounted(NextAcquisition(s, e).value)
  {
    if e.ScanStarted? || e.ConnectStarted? || e.ScanEnded? || e.ConnectEnded? {
    } else {
      AcquisitionKept(s, e);
    }
  }

  // Only scans and connects change the account.
  lemma AcquisitionKept(s: State, e: Event)
    requires Enabled(s, e) && !Boundary(e) && s.acquisition.Some?
    requires !e.ScanStarted? && !e.ConnectStarted? && !Closes(e)
    ensures NextAcquisition(s, e).Some?
    ensures var a, b := s.acquisition.value, NextAcquisition(s, e).value;
            && b.active == a.active && b.phase == a.phase && b.inside == a.inside && b.scans == a.scans
            && b.cachedConnects == a.cachedConnects && b.freshConnects == a.freshConnects
  {
  }

  // The step of CountsTracked, on one state.
  lemma AcquisitionStep(s: State, e: Event)
    requires Enabled(s, e) && !Boundary(e)
    requires s.acquisition.Some? && Accounted(s.acquisition.value)
    ensures Apply(s, e).acquisition.Some?
    ensures var a, b := s.acquisition.value, Apply(s, e).acquisition.value;
            && Accounted(b)
            && b.active == a.active && b.started == a.started && b.budget == a.budget
            && b.scans == a.scans + (if e.ScanStarted? then 1 else 0)
            && b.cachedConnects + b.freshConnects
               == a.cachedConnects + a.freshConnects + (if e.ConnectStarted? then 1 else 0)
  {
    hide Enabled, Accounted, NextAcquisition, NextAttempt, NextOwner, NextTeardown, NextClean, NextGate;
    AcquisitionCounts(s, e);
    AcquisitionAccounted(s, e);
  }

  ghost predicate Tracks(h: seq<Event>, i: nat, k: nat, o: Option<Acquisition>)
    requires i < k <= |h| && h[i].AcquisitionStarted?
  {
    && o.Some?
    && Accounted(o.value)
    && o.value.active == h[i].active
    && o.value.started == h[i].at
    && o.value.budget == h[i].budget
    && o.value.scans == Scans(h, i, k)
    && o.value.cachedConnects + o.value.freshConnects == Connects(h, i, k)
  }

  lemma ApplyAcquisition(s: State, e: Event)
    requires Enabled(s, e)
    ensures Apply(s, e).acquisition == NextAcquisition(s, e)
  {
    hide Enabled, NextAcquisition;
  }

  lemma CountsBegin(h: seq<Event>, i: nat, s: State)
    requires i < |h| && Enabled(s, h[i]) && h[i].AcquisitionStarted?
    ensures Tracks(h, i, i + 1, Apply(s, h[i]).acquisition)
  {
    hide Apply, Enabled;
    ApplyAcquisition(s, h[i]);
  }

  lemma {:induction false} CountsTracked(h: seq<Event>, ss: seq<State>, i: nat, k: nat)
    requires Run(h, ss)
    requires i < k <= |h| && h[i].AcquisitionStarted? && SameAcquisition(h, i, k)
    ensures Tracks(h, i, k, ss[k].acquisition)
  {
    hide Apply, Enabled, Accounted;
    if k == i + 1 {
      CountsBegin(h, i, ss[i]);
    } else {
      CountsTracked(h, ss, i, k - 1);
      AcquisitionStep(ss[k - 1], h[k - 1]);
    }
  }

  ghost predicate TracksWindows(h: seq<Event>, i: nat, k: nat, o: Option<Acquisition>)
    requires i < k <= |h|
  {
    && o.Some?
    && o.value.inside == Inside(h, i, k)
    && OpenWindowOf(o.value) == WindowAt(h, i, k)
    && (o.value.stopped <==> Excused(h, i, k))
  }

  lemma ExcusedStep(h: seq<Event>, i: nat, k: nat)
    requires i < k < |h|
    ensures Excused(h, i, k + 1) <==> Excused(h, i, k) || EndsPolicy(h[k])
  {
    hide EndsPolicy;
  }

  lemma WindowsTrackedStep(h: seq<Event>, i: nat, k: nat, s: State)
    requires i < k < |h| && Enabled(s, h[k]) && !Boundary(h[k])
    requires TracksWindows(h, i, k, s.acquisition)
    ensures TracksWindows(h, i, k + 1, Apply(s, h[k]).acquisition)
  {
    hide Apply, Enabled, NextAcquisition, Excused, EndsPolicy, OpenWindowOf, Opens, InsideLast;
    WindowStep(s, h[k]);
    ApplyAcquisition(s, h[k]);
    ExcusedStep(h, i, k);
  }

  lemma WindowsBegin(h: seq<Event>, i: nat, s: State)
    requires i < |h| && Enabled(s, h[i]) && h[i].AcquisitionStarted?
    ensures TracksWindows(h, i, i + 1, Apply(s, h[i]).acquisition)
  {
    hide Apply, Enabled, EndsPolicy;
    ApplyAcquisition(s, h[i]);
  }

  lemma {:induction false} WindowsTracked(h: seq<Event>, ss: seq<State>, i: nat, k: nat)
    requires Run(h, ss)
    requires i < k <= |h| && h[i].AcquisitionStarted? && SameAcquisition(h, i, k)
    ensures TracksWindows(h, i, k, ss[k].acquisition)
  {
    hide Apply, Enabled, TracksWindows, EndsPolicy;
    if k == i + 1 {
      WindowsBegin(h, i, ss[i]);
    } else {
      WindowsTracked(h, ss, i, k - 1);
      WindowsTrackedStep(h, i, k - 1, ss[k - 1]);
    }
  }

  // What is known of an acquisition is what its events say: its scans and
  // connects, the open window, the time inside windows, and whether the
  // deadline, a discard or a setup failure ended its policy.
  lemma AcquisitionTracked(h: seq<Event>, ss: seq<State>, i: nat, k: nat)
    requires Run(h, ss)
    requires i < k <= |h| && h[i].AcquisitionStarted? && SameAcquisition(h, i, k)
    ensures Tracks(h, i, k, ss[k].acquisition) && TracksWindows(h, i, k, ss[k].acquisition)
  {
    hide Apply, Enabled, Tracks, TracksWindows;
    CountsTracked(h, ss, i, k);
    WindowsTracked(h, ss, i, k);
  }

  // One acquisition: at most one active scan and two connects; without
  // `active_scan` no scan and at most one connect.
  lemma AcquisitionBounded(h: seq<Event>, ss: seq<State>, i: nat, k: nat)
    requires Run(h, ss)
    requires i < k <= |h| && h[i].AcquisitionStarted? && SameAcquisition(h, i, k)
    ensures Scans(h, i, k) <= 1 && Connects(h, i, k) <= 2
    ensures !h[i].active ==> Scans(h, i, k) == 0 && Connects(h, i, k) <= 1
  {
    AcquisitionTracked(h, ss, i, k);
  }

  // No scan or connect is granted a window that ends after started + budget,
  // nor less than its cap and the budget allow: a scan in whole seconds.
  lemma WindowsEndInBudget(h: seq<Event>, ss: seq<State>, i: nat, k: nat)
    requires Run(h, ss)
    requires i < k < |h| && h[i].AcquisitionStarted? && SameAcquisition(h, i, k)
    ensures h[k].ScanStarted? ==>
              var remaining := h[i].at + h[i].budget - h[k].at;
              && 1 <= h[k].seconds <= 25 && h[k].seconds as real <= remaining
              && (h[k].seconds == 25 || remaining < h[k].seconds as real + 1.0)
    ensures h[k].ConnectStarted? ==>
              var remaining := h[i].at + h[i].budget - h[k].at;
              && 0.0 < h[k].window <= remaining
              && h[k].window == Min(if Scans(h, i, k) == 1 then 42.0 else 16.0, remaining)
  {
    AcquisitionTracked(h, ss, i, k);
    assert Enabled(ss[k], h[k]);
  }

  // The time inside windows is part of the time that has passed.
  predicate InsidePassed(a: Acquisition) {
    a.inside <= a.last - a.started
  }

  lemma InsideStep(s: State, e: Event)
    requires Enabled(s, e) && !Boundary(e)
    requires s.acquisition.Some? && InsidePassed(s.acquisition.value)
    ensures NextAcquisition(s, e).Some? && InsidePassed(NextAcquisition(s, e).value)
  {
  }

  lemma {:induction false} InsideElapsed(h: seq<Event>, ss: seq<State>, i: nat, k: nat)
    requires Run(h, ss)
    requires i < k <= |h| && h[i].AcquisitionStarted? && SameAcquisition(h, i, k)
    ensures ss[k].acquisition.Some? && InsidePassed(ss[k].acquisition.value)
  {
    if k == i + 1 {
      assert Enabled(ss[i], h[i]);
    } else {
      hide Apply, Enabled, InsidePassed, NextAcquisition;
      InsideElapsed(h, ss, i, k - 1);
      InsideStep(ss[k - 1], h[k - 1]);
      ApplyAcquisition(ss[k - 1], h[k - 1]);
    }
  }

  // The time an acquisition spent outside every window before its connect k:
  // in teardown, in scheduling, and after a window that was over.
  ghost function Outside(h: seq<Event>, i: nat, k: nat): real
    requires i < k < |h| && h[i].AcquisitionStarted? && h[k].ConnectStarted?
  {
    h[k].at - h[i].at - Inside(h, i, k)
  }

  // The connect after the scan keeps what the budget leaves after one cached
  // connect, one scan and the time c spent outside every window: at least
  // 19 - c of 60 seconds and 7 - c of 48 (and never more than 42).
  lemma FreshConnectKeepsItsShare(h: seq<Event>, ss: seq<State>, i: nat, k: nat)
    requires Run(h, ss)
    requires i < k < |h| && h[i].AcquisitionStarted? && SameAcquisition(h, i, k)
    requires h[k].ConnectStarted? && Scans(h, i, k) == 1
    ensures h[k].window >= Min(42.0, h[i].budget - 41.0 - Outside(h, i, k))
    ensures 0.0 <= Outside(h, i, k)
    ensures h[i].budget == 60.0 ==> h[k].window >= 19.0 - Outside(h, i, k)
    ensures h[i].budget == 48.0 ==> h[k].window >= 7.0 - Outside(h, i, k)
  {
    InsideElapsed(h, ss, i, k);
    AcquisitionTracked(h, ss, i, k);
    assert Enabled(ss[k], h[k]);
  }

  // ---- Cancellations ------------------------------------------------------

  // What may lie behind a cancellation: it was requested, an awaited call ended
  // in one, or a connect was cut off, and not by its own timeout.
  predicate Causes(e: Event) {
    || e.CancelRequested? || e.CallCancelled?
    || (e.ConnectEnded? && CutOutside(e.ended, e.expired, e.cancelled, e.requested))
  }

  ghost predicate Caused(h: seq<Event>, i: nat, k: nat) {
    exists m :: i < m < k && m < |h| && Causes(h[m])
  }

  lemma RequestStep(s: State, e: Event)
    requires Enabled(s, e)
    ensures Apply(s, e).requested ==> !e.Acquired? && (s.requested || Causes(e))
  {
    hide Enabled, NextAttempt, NextAcquisition, NextOwner, NextTeardown, NextClean, NextGate, NextWork;
  }

  lemma InterruptionGuard(s: State, e: Event)
    requires Enabled(s, e) && e.Interrupted?
    ensures s.holder.Some? && s.requested
  {
  }

  lemma {:induction false} RequestWasCaused(h: seq<Event>, ss: seq<State>, i: nat, k: nat)
    requires Run(h, ss)
    requires i < k <= |h| && h[i].Acquired? && NoRelease(h, i, k)
    ensures |ss| == |h| + 1 && (ss[k].requested ==> Caused(h, i, k))
  {
    hide Apply, Enabled, Run, Causes;
    StepAt(h, ss, k - 1);
    RequestStep(ss[k - 1], h[k - 1]);
    if k > i + 1 {
      RequestWasCaused(h, ss, i, k - 1);
    }
  }

  // No cancellation is delivered to an operation without a cause in it; that a
  // connect's own timeout expired is none.
  lemma InterruptedWasCaused(h: seq<Event>, ss: seq<State>, k: nat) returns (i: nat)
    requires Run(h, ss) && k < |h| && h[k].Interrupted?
    ensures i < k && h[i].Acquired? && NoRelease(h, i, k) && Caused(h, i, k)
  {
    hide Apply, Enabled;
    InterruptionGuard(ss[k], h[k]);
    i := HolderAcquired(h, ss, k);
    RequestWasCaused(h, ss, i, k);
  }

  ghost predicate NoAcquired(h: seq<Event>, i: nat, k: nat) {
    forall m :: i < m < k && m < |h| ==> !h[m].Acquired?
  }

  lemma {:induction false} InterruptionsCounted(h: seq<Event>, ss: seq<State>, i: nat, k: nat)
    requires Run(h, ss) && i < k <= |h| && NoAcquired(h, i, k)
    ensures |ss| == |h| + 1 && ss[i + 1].interruptions <= ss[k].interruptions
    ensures ss[i + 1].interruptions < ss[k].interruptions <==> Occurs(h, i, k, Interrupted)
  {
    hide Apply, Enabled, Run;
    StepAt(h, ss, i);
    if k > i + 1 {
      InterruptionsCounted(h, ss, i, k - 1);
      StepAt(h, ss, k - 1);
      InterruptionsStep(ss[k - 1], h[k - 1]);
      OccursStep(h, i, k - 1, Interrupted);
    }
  }

  // ---- Leaving an acquisition ---------------------------------------------

  ghost predicate Ends(h: seq<Event>, i: nat, k: nat) {
    exists m :: i < m < k && m < |h| && h[m].AcquisitionEnded?
  }

  lemma EndedStep(s: State, e: Event)
    requires Enabled(s, e) && !Boundary(e) && s.acquisition.Some?
    ensures NextAcquisition(s, e).Some? && NextAcquisition(s, e).value.base == s.acquisition.value.base
    ensures NextAcquisition(s, e).value.ended ==> s.acquisition.value.ended || e.AcquisitionEnded?
  {
  }

  lemma EndedBegin(s: State, e: Event)
    requires Enabled(s, e) && e.AcquisitionStarted?
    ensures s.holder.Some? && NextAcquisition(s, e).Some?
    ensures !NextAcquisition(s, e).value.ended && NextAcquisition(s, e).value.base == s.interruptions
  {
  }

  lemma {:induction false} EndedTracked(h: seq<Event>, ss: seq<State>, i: nat, k: nat)
    requires Run(h, ss)
    requires i < k <= |h| && h[i].AcquisitionStarted? && SameAcquisition(h, i, k)
    ensures |ss| == |h| + 1 && ss[k].acquisition.Some? && ss[k].acquisition.value.base == ss[i].interruptions
    ensures ss[k].acquisition.value.ended ==> Ends(h, i, k)
  {
    hide Apply, Enabled, Run, NextAcquisition;
    StepAt(h, ss, k - 1);
    ApplyAcquisition(ss[k - 1], h[k - 1]);
    if k == i + 1 {
      EndedBegin(ss[i], h[i]);
    } else {
      EndedTracked(h, ss, i, k - 1);
      EndedStep(ss[k - 1], h[k - 1]);
    }
  }

  lemma LeavingGuard(s: State, e: Event)
    requires Enabled(s, e) && Boundary(e) && s.acquisition.Some? && (e.Acquired? ==> s.holder.Some?)
    ensures s.acquisition.value.ended || s.interruptions > s.acquisition.value.base
  {
  }

  lemma HolderStep(s: State, e: Event)
    requires Enabled(s, e)
    ensures Apply(s, e).holder == if e.Acquired? then Some(e.op) else if e.Released? then None else s.holder
    ensures s.holder.Some? ==> !e.Acquired?
  {
    hide NextAttempt, NextAcquisition, NextOwner, NextTeardown, NextClean, NextGate, NextWork, NextRequested;
  }

  lemma {:induction false} AcquirerHolds(h: seq<Event>, ss: seq<State>, i: nat, k: nat)
    requires Run(h, ss)
    requires i < k <= |h| && h[i].AcquisitionStarted? && SameAcquisition(h, i, k)
    ensures |ss| == |h| + 1 && ss[i].holder.Some? && ss[k].holder == ss[i].holder
  {
    hide Apply, Enabled, Run, NextAcquisition;
    StepAt(h, ss, k - 1);
    HolderStep(ss[k - 1], h[k - 1]);
    if k == i + 1 {
      EndedBegin(ss[i], h[i]);
    } else {
      AcquirerHolds(h, ss, i, k - 1);
    }
  }

  // An acquisition that is left without having returned was interrupted, so
  // something in its operation caused a cancellation: see InterruptedWasCaused.
  lemma AcquisitionLeft(h: seq<Event>, ss: seq<State>, i: nat, k: nat)
    requires Run(h, ss)
    requires i < k < |h| && h[i].AcquisitionStarted? && SameAcquisition(h, i, k) && Boundary(h[k])
    ensures Ends(h, i, k) || Occurs(h, i, k, Interrupted)
  {
    hide Apply, Enabled, Run;
    EndedTracked(h, ss, i, k);
    AcquirerHolds(h, ss, i, k);
    InterruptionsCounted(h, ss, i, k);
    StepAt(h, ss, i);
    InterruptionsStep(ss[i], h[i]);
    StepAt(h, ss, k);
    LeavingGuard(ss[k], h[k]);
  }

  lemma ConnectsStay(s: State, e: Event)
    requires Enabled(s, e) && !Boundary(e) && s.acquisition.Some?
    ensures NextAcquisition(s, e).Some?
    ensures NextAcquisition(s, e).value.cachedConnects >= s.acquisition.value.cachedConnects
    ensures NextAcquisition(s, e).value.scans == s.acquisition.value.scans + (if e.ScanStarted? then 1 else 0)
  {
  }

  lemma EndingConnect(s: State, e: Event)
    requires Enabled(s, e) && e.ConnectEnded?
    requires s.acquisition.Some? && Accounted(s.acquisition.value) && s.acquisition.value.scans == 0
    ensures s.acquisition.value.cachedConnects == 1
  {
  }

  lemma {:induction false} CachedRouteIsUsed(h: seq<Event>, ss: seq<State>, i: nat, m: nat, n: nat)
    requires Run(h, ss)
    requires i < m < n <= |h| && h[i].AcquisitionStarted? && SameAcquisition(h, i, n)
    requires h[m].ConnectEnded? && Scans(h, i, m) == 0
    ensures |ss| == |h| + 1 && ss[n].acquisition.Some? && ss[n].acquisition.value.cachedConnects >= 1
  {
    hide Apply, Enabled, Run, NextAcquisition, Accounted;
    StepAt(h, ss, n - 1);
    ApplyAcquisition(ss[n - 1], h[n - 1]);
    if n == m + 1 {
      CountsTracked(h, ss, i, m);
      EndingConnect(ss[m], h[m]);
    } else {
      CachedRouteIsUsed(h, ss, i, m, n - 1);
    }
    ConnectsStay(ss[n - 1], h[n - 1]);
  }

  lemma CreationGuard(s: State, e: Event)
    requires Enabled(s, e) && s.acquisition.Some?
    requires s.acquisition.value.scans == 0 && s.acquisition.value.cachedConnects >= 1
    ensures !e.Created?
  {
  }

  lemma {:induction false} NothingCreatedBeforeScan(
      h: seq<Event>, ss: seq<State>, i: nat, m: nat, r: nat, n: nat)
    requires Run(h, ss)
    requires i < m < r < n <= |h| && h[i].AcquisitionStarted? && SameAcquisition(h, i, n)
    requires h[m].ConnectEnded? && h[r].Retired? && Scans(h, i, n) == 0
    ensures |ss| == |h| + 1 && ss[n].owner.Nobody?
  {
    hide Apply, Enabled, Run, NextAcquisition, Accounted;
    StepAt(h, ss, n - 1);
    OwnerStep(ss[n - 1], h[n - 1]);
    if n > r + 1 {
      NothingCreatedBeforeScan(h, ss, i, m, r, n - 1);
      NoScanBefore(h, i, m, n - 1);
      CachedRouteIsUsed(h, ss, i, m, n - 1);
      CountsTracked(h, ss, i, n - 1);
      CreationGuard(ss[n - 1], h[n - 1]);
    }
  }

  lemma {:induction false} NoScanBefore(h: seq<Event>, i: nat, m: nat, n: nat)
    requires i < m <= n <= |h| && Scans(h, i, n) == 0
    ensures Scans(h, i, m) == 0
  {
    if m < n {
      NoScanBefore(h, i, m, n - 1);
    }
  }

  lemma EndGuard(s: State, e: Event)
    requires Enabled(s, e) && e.AcquisitionEnded? && s.owner.Nobody?
    ensures s.acquisition.Some? && (s.closing || Spent(s.acquisition.value))
  {
  }

  // A connect that its own timeout cut off, in an acquisition that may scan and
  // has not, is followed by the scan once its client was torn down: unless a
  // cancellation is delivered, the connection closes, or the deadline ends it.
  lemma ExpiredConnectIsRetried(h: seq<Event>, ss: seq<State>, i: nat, m: nat, r: nat, k: nat) returns (n: nat)
    requires Run(h, ss)
    requires i < m < r < k < |h| && h[i].AcquisitionStarted? && SameAcquisition(h, i, k) && Boundary(h[k])
    requires h[i].active && Scans(h, i, m) == 0
    requires h[m].ConnectEnded? && OwnExpiry(h[m].ended, h[m].expired, h[m].cancelled, h[m].requested)
    requires h[r].Retired? && !Occurs(h, i, k, Interrupted)
    requires forall x :: i < x < r ==> !h[x].AcquisitionEnded?
    ensures n < k && h[n].AcquisitionEnded?
    ensures i < n && (Scans(h, i, n) == 1 || Excused(h, i, n) || ss[n].closing)
  {
    hide Apply, Enabled, Run, Accounted, EndsPolicy;
    AcquisitionLeft(h, ss, i, k);
    n :| i < n < k && h[n].AcquisitionEnded?;
    AcquisitionTracked(h, ss, i, n);
    StepAt(h, ss, n);
    AcquisitionBounded(h, ss, i, n);
    if Scans(h, i, n) == 0 {
      assert n != r;
      NothingCreatedBeforeScan(h, ss, i, m, r, n);
      EndGuard(ss[n], h[n]);
    }
  }

  // Once the deadline, a discard or a setup failure ended the policy, nothing
  // more is tried.
  lemma ExcuseIsFinal(h: seq<Event>, ss: seq<State>, i: nat, k: nat)
    requires Run(h, ss)
    requires i < k < |h| && h[i].AcquisitionStarted? && SameAcquisition(h, i, k)
    requires h[k].ScanStarted? || h[k].ConnectStarted? || h[k].Created?
    ensures !Excused(h, i, k)
  {
    hide Apply, Enabled, Run, EndsPolicy, Accounted;
    WindowsTracked(h, ss, i, k);
    StepAt(h, ss, k);
    UnstoppedGuard(ss[k], h[k]);
  }

  lemma UnstoppedGuard(s: State, e: Event)
    requires Enabled(s, e) && s.acquisition.Some? && (e.ScanStarted? || e.ConnectStarted? || e.Created?)
    ensures !s.acquisition.value.stopped
  {
  }

  lemma ExcuseGuard(s: State, e: Event)
    requires Enabled(s, e) && (e.OutOfTime? || e.Discarded?)
    ensures s.acquisition.Some?
    ensures e.Discarded? ==> s.closing
    ensures e.OutOfTime? ==>
              var a := s.acquisition.value;
              if a.active && a.scans == 0 then Deadline(a) - e.at < 1.0 else Deadline(a) <= e.at
  {
  }

  // The deadline ends an acquisition only with less than the one second left
  // that a scan takes, or with none if no scan is to come; a candidate is
  // discarded only for a stop.
  lemma ExcusesHold(h: seq<Event>, ss: seq<State>, i: nat, k: nat)
    requires Run(h, ss)
    requires i < k < |h| && h[i].AcquisitionStarted? && SameAcquisition(h, i, k)
    ensures h[k].OutOfTime? ==> h[i].at + h[i].budget - h[k].at < 1.0
    ensures h[k].OutOfTime? && (!h[i].active || Scans(h, i, k) == 1) ==> h[i].at + h[i].budget <= h[k].at
    ensures |ss| == |h| + 1 && (h[k].Discarded? ==> ss[k].closing)
  {
    hide Apply, Enabled, Run, Accounted;
    CountsTracked(h, ss, i, k);
    StepAt(h, ss, k);
    if h[k].OutOfTime? || h[k].Discarded? {
      ExcuseGuard(ss[k], h[k]);
    }
  }

  // ---- Routes -------------------------------------------------------------

  // The latest route before event k: a cached one, unless an acquisition that
  // may scan calls it stale, or what the scan found.
  ghost function RouteAt(h: seq<Event>, i: nat, k: nat): Route
    requires i < k <= |h| && h[i].AcquisitionStarted?
    decreases k
  {
    if k == i + 1 then Unsought
    else match h[k - 1]
         case RouteRead(cached, stale) => if cached && (!h[i].active || !stale) then Usable else Missing
         case ScanStarted(_, _) => Unsought
         case ScanEnded(_, found) => if found then Usable else Missing
         case _ => RouteAt(h, i, k - 1)
  }

  lemma RouteStep(s: State, e: Event)
    requires Enabled(s, e) && !Boundary(e) && s.acquisition.Some?
    ensures NextAcquisition(s, e).Some?
    ensures NextAcquisition(s, e).value.route ==
              match e
              case RouteRead(cached, stale) =>
                if cached && (!s.acquisition.value.active || !stale) then Usable else Missing
              case ScanStarted(_, _) => Unsought
              case ScanEnded(_, found) => if found then Usable else Missing
              case _ => s.acquisition.value.route
  {
  }

  lemma RouteBegin(s: State, e: Event)
    requires Enabled(s, e) && e.AcquisitionStarted?
    ensures NextAcquisition(s, e).Some? && NextAcquisition(s, e).value.route.Unsought?
  {
  }

  lemma {:induction false} RouteTracked(h: seq<Event>, ss: seq<State>, i: nat, k: nat)
    requires Run(h, ss)
    requires i < k <= |h| && h[i].AcquisitionStarted? && SameAcquisition(h, i, k)
    ensures |ss| == |h| + 1 && ss[k].acquisition.Some? && ss[k].acquisition.value.route == RouteAt(h, i, k)
  {
    hide Apply, Enabled, Run, NextAcquisition, Accounted;
    StepAt(h, ss, k - 1);
    ApplyAcquisition(ss[k - 1], h[k - 1]);
    if k == i + 1 {
      RouteBegin(ss[i], h[i]);
    } else {
      RouteTracked(h, ss, i, k - 1);
      CountsTracked(h, ss, i, k - 1);
      RouteStep(ss[k - 1], h[k - 1]);
    }
  }

  lemma RouteGuard(s: State, e: Event)
    requires Enabled(s, e) && e.Created? && s.acquisition.Some?
    ensures s.acquisition.value.route.Usable?
  {
  }

  // A client is created only for a cached route, which must not be stale if the
  // acquisition may scan, or for one the scan found.
  lemma CreatedOnRoute(h: seq<Event>, ss: seq<State>, i: nat, k: nat)
    requires Run(h, ss)
    requires i < k < |h| && h[i].AcquisitionStarted? && SameAcquisition(h, i, k) && h[k].Created?
    ensures RouteAt(h, i, k).Usable?
  {
    hide Apply, Enabled, Run;
    RouteTracked(h, ss, i, k);
    StepAt(h, ss, k);
    RouteGuard(ss[k], h[k]);
  }

  lemma ScanGuard(s: State, e: Event)
    requires Enabled(s, e) && e.ScanStarted? && s.acquisition.Some?
    ensures s.acquisition.value.route.Missing? || s.acquisition.value.cachedConnects == 1
  {
  }

  // The scan is the second choice: there was no usable cached route, or the one
  // connect over it is over.
  lemma ScansSecond(h: seq<Event>, ss: seq<State>, i: nat, k: nat)
    requires Run(h, ss)
    requires i < k < |h| && h[i].AcquisitionStarted? && SameAcquisition(h, i, k) && h[k].ScanStarted?
    ensures RouteAt(h, i, k).Missing? || Connects(h, i, k) >= 1
  {
    hide Apply, Enabled, Run, Accounted;
    RouteTracked(h, ss, i, k);
    CountsTracked(h, ss, i, k);
    StepAt(h, ss, k);
    ScanGuard(ss[k], h[k]);
  }

  // ---- Budgets ------------------------------------------------------------

  // What each operation may spend on an acquisition, and whether it may scan.
  lemma PolicyGuard(s: State, e: Event)
    requires Enabled(s, e) && e.AcquisitionStarted?
    ensures s.holder.Some?
    ensures match s.holder.value
            case Control(_) => e.active && (e.budget == if s.attempt.reconciling then 48.0 else 60.0)
            case Query => e.budget == if e.active then 48.0 else 16.0
            case Management => e.budget == 60.0
            case Inventory => e.active && e.budget == 16.0
            case _ => !e.active && e.budget == 16.0
  {
  }

  // A request operates only with an acquisition behind it.
  predicate HasAcquired(s: State) {
    var a := s.attempt;
    a.started || a.running || a.written || a.reconciling || a.reconciled ==> s.acquisition.Some?
  }

  lemma AcquisitionStays(s: State, e: Event)
    requires Enabled(s, e)
    ensures e.Acquired? || e.Released? ==> NextAcquisition(s, e).None?
    ensures s.acquisition.Some? && !e.Acquired? && !e.Released? ==> NextAcquisition(s, e).Some?
    ensures e.AcquisitionStarted? ==> NextAcquisition(s, e).Some?
    ensures e.OperationStarted? ==> s.acquisition.Some?
    ensures e.ControlWritten? ==> s.attempt.running
    ensures e.ReconciliationStarted? ==> s.attempt.written
    ensures e.ReconciliationEnded? ==> s.attempt.reconciling
  {
  }

  lemma HasAcquiredStep(s: State, e: Event)
    requires Enabled(s, e) && HasAcquired(s)
    ensures HasAcquired(Apply(s, e))
  {
    hide Apply, Enabled, NextAcquisition;
    AttemptIs(s, e);
    ApplyAcquisition(s, e);
    AcquisitionStays(s, e);
  }

  lemma {:induction false} OperatesOnAcquisition(h: seq<Event>, ss: seq<State>, k: nat)
    requires Run(h, ss) && k <= |h|
    ensures |ss| == |h| + 1 && HasAcquired(ss[k])
  {
    hide Apply, Enabled, HasAcquired;
    if k > 0 {
      OperatesOnAcquisition(h, ss, k - 1);
      HasAcquiredStep(ss[k - 1], h[k - 1]);
    } else {
      InitiallyIdle();
    }
  }

  lemma InitiallyIdle()
    ensures HasAcquired(INITIAL)
  {
  }

  lemma AcquiresOnce(s: State, e: Event)
    requires Enabled(s, e) && e.AcquisitionStarted?
    ensures if s.attempt.reconciling then s.search.NotBegun? else s.acquisition.None?
  {
  }

  // The budget of every acquisition is that of its operation: a control gets 60
  // seconds, and 48 to reconcile; both may scan.
  lemma BudgetOfOperation(h: seq<Event>, ss: seq<State>, i: nat, k: nat)
    requires Run(h, ss)
    requires i < k < |h| && h[i].Acquired? && NoRelease(h, i, k) && h[k].AcquisitionStarted?
    ensures match h[i].op
            case Control(_) =>
              h[k].active && (h[k].budget == if Occurs(h, i, k, ReconciliationStarted) then 48.0 else 60.0)
            case Query => h[k].budget == if h[k].active then 48.0 else 16.0
            case Management => h[k].budget == 60.0
            case Inventory => h[k].active && h[k].budget == 16.0
            case _ => !h[k].active && h[k].budget == 16.0
  {
    hide Apply, Enabled, Run, ReconciliationsEnd, Occurs;
    HeldStep(h, ss, i, k);
    PolicyGuard(ss[k], h[k]);
    ReconciliationTracked(h, ss, i, k);
    AcquiresOnce(ss[k], h[k]);
    OperatesOnAcquisition(h, ss, k);
  }

  predicate HasSearched(s: State) {
    s.acquisition.Some? && (s.attempt.reconciling ==> !s.search.NotBegun?)
  }

  lemma SearchedStep(s: State, e: Event)
    requires Enabled(s, e) && !e.Acquired? && !e.Released? && !e.ReconciliationStarted?
    requires HasSearched(s) || e.AcquisitionStarted?
    ensures HasSearched(Apply(s, e))
  {
    hide Apply, Enabled, NextAcquisition;
    AttemptIs(s, e);
    SearchIs(s, e);
    ApplyAcquisition(s, e);
    AcquisitionStays(s, e);
  }

  lemma {:induction false} SearchesOnce(h: seq<Event>, ss: seq<State>, i: nat, a: nat, b: nat)
    requires Run(h, ss)
    requires i < a < b <= |h| && h[i].Acquired? && NoRelease(h, i, b)
    requires h[a].AcquisitionStarted? && !Occurs(h, a, b, ReconciliationStarted)
    ensures |ss| == |h| + 1 && HasSearched(ss[b])
  {
    hide Apply, Enabled, Run, HasSearched;
    HeldStep(h, ss, i, b - 1);
    if b > a + 1 {
      SearchesOnce(h, ss, i, a, b - 1);
    }
    SearchedStep(ss[b - 1], h[b - 1]);
  }

  // An operation makes one acquisition; a control request one more, to reconcile.
  lemma OneAcquisitionEach(h: seq<Event>, ss: seq<State>, i: nat, a: nat, b: nat)
    requires Run(h, ss)
    requires i < a < b < |h| && h[i].Acquired? && NoRelease(h, i, b)
    requires h[a].AcquisitionStarted? && h[b].AcquisitionStarted?
    ensures Occurs(h, a, b, ReconciliationStarted)
  {
    hide Apply, Enabled, Run;
    if !Occurs(h, a, b, ReconciliationStarted) {
      SearchesOnce(h, ss, i, a, b);
      StepAt(h, ss, b);
      AcquiresOnce(ss[b], h[b]);
    }
  }

  // ---- What the operations report -----------------------------------------

  ghost function LastAnswer(h: seq<Event>, i: nat, k: nat): Option<Option<bool>>
    requires i < k <= |h|
    decreases k
  {
    if k == i + 1 then None
    else if h[k - 1].StateRead? then Some(h[k - 1].locked)
    else LastAnswer(h, i, k - 1)
  }

  ghost function LastCall(h: seq<Event>, i: nat, k: nat): Option<Exit<()>>
    requires i < k <= |h|
    decreases k
  {
    if k == i + 1 then None
    else if h[k - 1].CallEnded? then Some(h[k - 1].ended)
    else LastCall(h, i, k - 1)
  }

  ghost function LastFailure(h: seq<Event>, i: nat, k: nat): Option<Error>
    requires i < k <= |h|
    decreases k
  {
    if k == i + 1 then None
    else if h[k - 1].QueryFailed? then Some(h[k - 1].error)
    else LastFailure(h, i, k - 1)
  }

  // The teardowns that left a client owned.
  ghost function Failures(h: seq<Event>, i: nat, k: nat): nat
    requires i < k <= |h|
    decreases k
  {
    if k == i + 1 then 0 else Failures(h, i, k - 1) + (if h[k - 1].TeardownFailed? then 1 else 0)
  }

  lemma WorkStep(s: State, e: Event)
    requires Enabled(s, e)
    ensures Apply(s, e).work == NextWork(s.work, e)
    ensures Apply(s, e).failures == if e.Acquired? then 0 else s.failures + (if e.TeardownFailed? then 1 else 0)
  {
    hide Enabled, NextAttempt, NextAcquisition, NextOwner, NextTeardown, NextClean, NextGate, NextWork, NextRequested;
  }

  lemma ServedStep(s: State, e: Event)
    requires Enabled(s, e)
    ensures e.Acquired? ==> !Served(Apply(s, e))
    ensures Served(Apply(s, e)) ==> Served(s) || e == AcquisitionEnded(true)
  {
    hide Apply;
    ApplyAcquisition(s, e);
  }

  lemma {:induction false} ServedTracked(h: seq<Event>, ss: seq<State>, i: nat, k: nat)
    requires Run(h, ss)
    requires i < k <= |h| && h[i].Acquired? && NoRelease(h, i, k)
    ensures |ss| == |h| + 1 && (Served(ss[k]) ==> Occurs(h, i, k, AcquisitionEnded(true)))
  {
    hide Apply, Enabled, Run, Served;
    StepAt(h, ss, k - 1);
    ServedStep(ss[k - 1], h[k - 1]);
    if k > i + 1 {
      ServedTracked(h, ss, i, k - 1);
      OccursStep(h, i, k - 1, AcquisitionEnded(true));
    }
  }

  lemma ServedGuard(s: State, e: Event)
    requires Enabled(s, e) && s.holder.Some?
    requires e.OperationStarted? || e.CallEnded? || (s.holder.value.Query? && (e.StateRead? || e.QueryFailed?))
    ensures Served(s)
    ensures e.OperationStarted? || e.StateRead? ==> s.owner.Installed?
  {
  }

  // No operation uses the SDK without a client that its acquisition returned.
  lemma UsesWhatItAcquired(h: seq<Event>, ss: seq<State>, i: nat, k: nat)
    requires Run(h, ss)
    requires i < k < |h| && h[i].Acquired? && NoRelease(h, i, k)
    requires h[k].OperationStarted? || h[k].CallEnded? || (h[i].op.Query? && (h[k].StateRead? || h[k].QueryFailed?))
    ensures Occurs(h, i, k, AcquisitionEnded(true))
  {
    hide Apply, Enabled, Run, Served;
    ServedTracked(h, ss, i, k);
    HeldUntilReleased(h, ss, i, k);
    StepAt(h, ss, k);
    ServedGuard(ss[k], h[k]);
  }

  predicate Failed(s: State) {
    s.acquisition.Some? && s.acquisition.value.ended && !s.acquisition.value.live
  }

  lemma FailedStep(s: State, e: Event)
    requires Enabled(s, e)
    ensures e.Acquired? ==> !Failed(Apply(s, e))
    ensures Failed(Apply(s, e)) ==> Failed(s) || e == AcquisitionEnded(false)
  {
    hide Apply;
    ApplyAcquisition(s, e);
  }

  lemma {:induction false} WorkTracked(h: seq<Event>, ss: seq<State>, i: nat, k: nat)
    requires Run(h, ss)
    requires i < k <= |h| && h[i].Acquired? && NoRelease(h, i, k)
    ensures |ss| == |h| + 1 && ss[k].work == Work(LastAnswer(h, i, k), LastFailure(h, i, k), LastCall(h, i, k))
    ensures ss[k].failures == Failures(h, i, k)
    ensures Failed(ss[k]) ==> Occurs(h, i, k, AcquisitionEnded(false))
    ensures Interrupts(ss[k]) <==> Occurs(h, i, k, Interrupted)
  {
    hide Apply, Enabled, Run, Failed;
    StepAt(h, ss, k - 1);
    WorkStep(ss[k - 1], h[k - 1]);
    FailedStep(ss[k - 1], h[k - 1]);
    InterruptionsStep(ss[k - 1], h[k - 1]);
    if k > i + 1 {
      WorkTracked(h, ss, i, k - 1);
      HeldStep(h, ss, i, k - 1);
    }
  }

  // What an operation other than a control request reports, from its Acquired
  // at i to its Released at j.
  ghost predicate ReportedTruly(h: seq<Event>, i: nat, j: nat, op: Op, verdict: Verdict)
    requires i < j <= |h|
  {
    var interrupted := Occurs(h, i, j, Interrupted);
    var unserved := Occurs(h, i, j, AcquisitionEnded(false));
    var answer, call := LastAnswer(h, i, j), LastCall(h, i, j);
    match op
    case Control(action) => ToldTruly(h, i, j, action, verdict)
    case Query =>
      && verdict == (if interrupted then Aborted else Answered(answer))
      && (answer.None? ==> LastFailure(h, i, j).Some? || unserved || interrupted)
    case OperationLog =>
      && verdict == (if interrupted then Aborted else Fetched(Succeeded(call)))
      && (call.None? ==> unserved || interrupted)
    case Management =>
      && verdict == (if Succeeded(call) then Completed else if interrupted then Aborted else Refused)
      && (call.None? ==> unserved || interrupted)
    case Inventory =>
      && verdict.Closed? && (verdict.read <==> Succeeded(call) && !interrupted)
      && (call.None? ==> unserved || interrupted)
    case Maintenance => verdict == if interrupted then Aborted else Completed
    case Shutdown =>
      if interrupted then verdict.Aborted?
      else verdict.Completed? || (verdict.Refused? && Failures(h, i, j) >= 2)
  }

  lemma ReleaseNeeds(s: State, e: Event)
    requires Enabled(s, e) && e.Released?
    ensures MayRelease(s, e.verdict)
  {
    hide MayRelease;
  }

  // Every operation reports what happened in it: the position it read last, how
  // its own SDK call ended, that its cancellation was delivered, or that a
  // shutdown tried the teardown twice.
  lemma OperationIsTruthful(h: seq<Event>, ss: seq<State>, i: nat, j: nat, verdict: Verdict)
    requires Run(h, ss)
    requires i < j < |h| && NoRelease(h, i, j)
    requires h[i].Acquired? && h[j] == Released(verdict)
    ensures ReportedTruly(h, i, j, h[i].op, verdict)
  {
    hide Apply, Enabled, Run, ToldTruly, Occurs;
    HeldUntilReleased(h, ss, i, j);
    if h[i].op.Control? {
      ControlIsTruthful(h, ss, i, j, h[i].op.action, verdict);
    } else {
      WorkTracked(h, ss, i, j);
      StepAt(h, ss, j);
      ReleaseNeeds(ss[j], h[j]);
    }
  }

  lemma AttemptNeeds(s: State, e: Event)
    requires Enabled(s, e) && e.Released? && s.holder.Some? && s.holder.value.Control?
    ensures s.attempt.started || Interrupts(s) || Failed(s)
  {
  }

  // A control request is attempted, unless no client could be acquired or a
  // cancellation was delivered.
  lemma ControlIsAttempted(h: seq<Event>, ss: seq<State>, i: nat, j: nat)
    requires Run(h, ss)
    requires i < j < |h| && NoRelease(h, i, j) && h[i].Acquired? && h[i].op.Control? && h[j].Released?
    ensures || Occurs(h, i, j, OperationStarted)
            || Occurs(h, i, j, AcquisitionEnded(false))
            || Occurs(h, i, j, Interrupted)
  {
    hide Apply, Enabled, Run, Occurs, Failed;
    HeldUntilReleased(h, ss, i, j);
    AttemptTracked(h, ss, i, j);
    WorkTracked(h, ss, i, j);
    StepAt(h, ss, j);
    AttemptNeeds(ss[j], h[j]);
  }

  // What succeeded, a call that was cancelled, and any call for the operation
  // log leave the session installed.
  lemma SessionIsKept(h: seq<Event>, ss: seq<State>, i: nat, j: nat)
    requires Run(h, ss)
    requires i < j < |h| && NoRelease(h, i, j) && h[i].Acquired? && h[j].Released?
    requires match h[i].op
             case Control(_) => h[j].verdict.Completed?
             case Query => LastAnswer(h, i, j).Some? || LastFailure(h, i, j) == Some(Cancelled)
             case Management => h[j].verdict.Completed? || LastCall(h, i, j) == Some(Raise(Cancelled))
             case OperationLog => LastCall(h, i, j).Some?
             case _ => false
    ensures |ss| == |h| + 1 && ss[j].owner.Installed?
  {
    hide Apply, Enabled, Run, Occurs;
    HeldUntilReleased(h, ss, i, j);
    WorkTracked(h, ss, i, j);
    StepAt(h, ss, j);
    ReleaseNeeds(ss[j], h[j]);
  }

  // ---- Adoption -----------------------------------------------------------

  lemma CleanStep(s: State, e: Event)
    requires Enabled(s, e) && Apply(s, e).clean
    requires s.clean ==> s.owner == Pending(s.created)
    ensures Apply(s, e).owner == Pending(s.created) && Apply(s, e).created == s.created
    ensures !e.Created?
    ensures e.ConnectEnded? ==> e.ended.Return? && !e.expired && !e.cancelled
    ensures !e.ConnectEnded? ==> s.clean
  {
    hide NextAttempt, NextAcquisition, NextTeardown, NextGate, NextWork, NextRequested, NextSearch;
  }

  lemma {:induction false} CleanMeansConnected(h: seq<Event>, ss: seq<State>, k: nat) returns (i: nat, m: nat)
    requires Run(h, ss) && k <= |h| && ss[k].clean
    ensures i < m < k && h[i] == Created(ss[k].created)
    ensures h[m].ConnectEnded? && h[m].ended.Return? && !h[m].expired && !h[m].cancelled
    ensures forall n :: i < n < k ==> !h[n].Created? && (h[n].ConnectEnded? ==> n <= m)
    ensures ss[k].owner == Pending(ss[k].created)
  {
    hide Apply, Enabled;
    assert k > 0;
    if ss[k - 1].clean {
      i, m := CleanMeansConnected(h, ss, k - 1);
    }
    CleanStep(ss[k - 1], h[k - 1]);
    if h[k - 1].ConnectEnded? {
      m := k - 1;
      i := OwnerWasCreated(h, ss, k);
      forall j | i < j < k
        ensures !h[j].Created?
      {
        if h[j].Created? {
          OwnerStep(ss[i], h[i]);
          OwnerStep(ss[j], h[j]);
          CreatedGrows(h, ss, i + 1, j);
          CreatedGrows(h, ss, j + 1, k);
        }
      }
    }
  }

  // A client is adopted only if its own connect returned, and neither its
  // deadline had expired nor its caller had been cancelled by then.
  lemma AdoptedOnlyClean(h: seq<Event>, ss: seq<State>, k: nat) returns (i: nat, m: nat)
    requires Run(h, ss) && k < |h| && h[k].Adopted?
    ensures i < m < k && h[i] == Created(h[k].generation)
    ensures h[m].ConnectEnded? && h[m].ended.Return? && !h[m].expired && !h[m].cancelled
    ensures forall n :: i < n < k ==> !h[n].Created? && (h[n].ConnectEnded? ==> n <= m)
  {
    assert Enabled(ss[k], h[k]);
    i, m := CleanMeansConnected(h, ss, k);
  }

  // ---- Inventory ----------------------------------------------------------

  // An inventory read that held the mutex leaves no installed client, reports
  // its cleanup confirmed exactly when nothing is owned, and otherwise no
  // client is created until the one it left is retired.
  lemma InventoryCloses(h: seq<Event>, ss: seq<State>, i: nat, j: nat, verdict: Verdict)
    requires Run(h, ss)
    requires i < j < |h| && NoRelease(h, i, j)
    requires h[i] == Acquired(Inventory) && h[j] == Released(verdict)
    ensures !ss[j + 1].owner.Installed?
    ensures verdict.Closed? && verdict.cleaned == ss[j + 1].owner.Nobody?
    ensures !verdict.cleaned ==>
              forall n :: j < n < |h| && h[n].Created? ==>
                exists m :: j < m < n && h[m] == Retired(ss[j + 1].owner.generation)
  {
    HeldUntilReleased(h, ss, i, j);
    assert Enabled(ss[j], h[j]);
    if !verdict.cleaned {
      var c := OwnerWasCreated(h, ss, j + 1);
      forall n | j < n < |h| && h[n].Created?
        ensures exists m :: j < m < n && h[m] == Retired(ss[j + 1].owner.generation)
      {
        CreatedAfterRetired(h, ss, c, n);
      }
    }
  }

  // ---- Teardown and give-up policy ----------------------------------------

  lemma TeardownStep(s: State, e: Event)
    requires Enabled(s, e)
    ensures e.Retired? ==> s.teardown.Confirmed?
    ensures Apply(s, e).teardown.Confirmed? && !s.teardown.Confirmed? ==>
              e == TeardownEvidence(true) || e == TeardownReturned
    ensures e.Created? || e.Demoted? || e.TeardownRaised? || e.TeardownFailed? || e.Retired? ==>
              !Apply(s, e).teardown.Confirmed?
  {
    hide NextAttempt, NextAcquisition, NextOwner, NextClean, NextGate, NextWork, NextRequested, NextSearch;
  }

  // What must not lie between the confirmation of a teardown and its use.
  predicate Unconfirms(e: Event) {
    e.Created? || e.Demoted? || e.TeardownRaised? || e.TeardownFailed? || e.Retired?
  }

  lemma {:induction false} ConfirmationSeen(h: seq<Event>, ss: seq<State>, k: nat) returns (m: nat)
    requires Run(h, ss) && k <= |h| && ss[k].teardown.Confirmed?
    ensures m < k && (h[m] == TeardownEvidence(true) || h[m] == TeardownReturned)
    ensures forall n :: m < n < k ==> !Unconfirms(h[n])
  {
    hide Apply, Enabled;
    assert k > 0;
    TeardownStep(ss[k - 1], h[k - 1]);
    if ss[k - 1].teardown.Confirmed? {
      m := ConfirmationSeen(h, ss, k - 1);
    } else {
      m := k - 1;
    }
  }

  // A client is retired only after its own disconnect returned or the SDK's
  // evidence was read, and nothing put that in doubt since.
  lemma RetiredWasConfirmed(h: seq<Event>, ss: seq<State>, k: nat) returns (m: nat)
    requires Run(h, ss) && k < |h| && h[k].Retired?
    ensures m < k && (h[m] == TeardownEvidence(true) || h[m] == TeardownReturned)
    ensures forall n :: m < n < k ==> !Unconfirms(h[n])
  {
    TeardownStep(ss[k], h[k]);
    m := ConfirmationSeen(h, ss, k);
  }

  // Starts the account of a teardown afresh.
  predicate Resets(e: Event) {
    e.Created? || e.Demoted? || e.TeardownFailed? || e.Retired?
  }

  lemma TeardownBack(s: State, e: Event)
    requires Enabled(s, e)
    ensures Apply(s, e).teardown.Asked? ==> !Resets(e) && (s.teardown.Asked? || e == TeardownEvidence(false))
    ensures Apply(s, e).teardown.Raised? ==>
              !Resets(e) && (s.teardown.Raised? || (s.teardown.Asked? && e == TeardownRaised))
    ensures Apply(s, e).teardown.Denied? ==>
              !Resets(e) && (s.teardown.Denied? || (s.teardown.Raised? && e == TeardownEvidence(false)))
  {
    hide NextAttempt, NextAcquisition, NextOwner, NextClean, NextGate, NextWork, NextRequested;
  }

  // The teardown of the client owned before event k: the evidence was missing
  // at a, and then the disconnect raised at b.
  lemma {:induction false} TeardownSeen(h: seq<Event>, ss: seq<State>, k: nat) returns (a: nat, b: nat)
    requires Run(h, ss) && k <= |h| && |ss| == |h| + 1
    requires ss[k].teardown.Asked? || ss[k].teardown.Raised? || ss[k].teardown.Denied?
    ensures a < k && h[a] == TeardownEvidence(false)
    ensures forall n :: a < n < k ==> !Resets(h[n])
    ensures !ss[k].teardown.Asked? ==> a < b < k && h[b] == TeardownRaised
    ensures ss[k].teardown.Denied? ==> Occurs(h, b, k, TeardownEvidence(false))
  {
    hide Apply, Enabled, Resets;
    assert k > 0;
    TeardownBack(ss[k - 1], h[k - 1]);
    if ss[k - 1].teardown.Untried? || ss[k - 1].teardown.Confirmed? {
      a, b := k - 1, 0;
    } else {
      a, b := TeardownSeen(h, ss, k - 1);
      if ss[k].teardown.Raised? && ss[k - 1].teardown.Asked? {
        b := k - 1;
      }
    }
  }

  lemma TeardownGuard(s: State, e: Event)
    requires Enabled(s, e)
    ensures e.TeardownReturned? || e.TeardownRaised? ==> s.teardown.Asked?
    ensures e.TeardownFailed? ==>
              s.holder.Some? && (s.teardown.Denied? || (s.teardown.Raised? && s.requested))
  {
  }

  // A client is kept only after the evidence was missing, its disconnect then
  // raised, and the evidence was missing again; or a cancellation cut this short.
  lemma KeptAfterDenial(h: seq<Event>, ss: seq<State>, k: nat) returns (a: nat, b: nat, i: nat)
    requires Run(h, ss) && k < |h| && h[k].TeardownFailed?
    ensures a < b < k && h[a] == TeardownEvidence(false) && h[b] == TeardownRaised
    ensures forall n :: a < n < k ==> !Resets(h[n])
    ensures i < k && h[i].Acquired? && NoRelease(h, i, k)
    ensures Occurs(h, b, k, TeardownEvidence(false)) || Caused(h, i, k)
  {
    hide Apply, Enabled, Resets, Causes;
    StepAt(h, ss, k);
    TeardownGuard(ss[k], h[k]);
    a, b := TeardownSeen(h, ss, k);
    i := HolderAcquired(h, ss, k);
    RequestWasCaused(h, ss, i, k);
  }

  // A disconnect is tried only after the evidence was read as missing.
  lemma DisconnectIsNeeded(h: seq<Event>, ss: seq<State>, k: nat) returns (a: nat)
    requires Run(h, ss) && k < |h| && (h[k].TeardownReturned? || h[k].TeardownRaised?)
    ensures a < k && h[a] == TeardownEvidence(false)
    ensures forall n :: a < n < k ==> !Resets(h[n])
  {
    hide Apply, Enabled, Resets;
    StepAt(h, ss, k);
    TeardownGuard(ss[k], h[k]);
    var b: nat;
    a, b := TeardownSeen(h, ss, k);
  }

  lemma LinkStep(s: State, e: Event)
    requires Enabled(s, e) && !Boundary(e) && s.acquisition.Some?
    ensures Apply(s, e).acquisition.Some?
    ensures Apply(s, e).acquisition.value.link.Down? && !s.acquisition.value.link.Down? ==> e == LinkRead(false)
    ensures Apply(s, e).acquisition.value.link.NoClient? ==> s.acquisition.value.link.NoClient?
  {
    hide Apply;
    ApplyAcquisition(s, e);
  }

  lemma ReplacementGuard(s: State, e: Event)
    requires Enabled(s, e) && e.Created? && s.acquisition.Some?
    ensures s.acquisition.value.link.Down? || s.acquisition.value.link.NoClient?
  {
  }

  lemma {:induction false} DownWasRead(h: seq<Event>, ss: seq<State>, i: nat, k: nat)
    requires Run(h, ss)
    requires i < k <= |h| && h[i].AcquisitionStarted? && SameAcquisition(h, i, k)
    requires ss[i].owner.Installed?
    ensures ss[k].acquisition.Some? && !ss[k].acquisition.value.link.NoClient?
    ensures ss[k].acquisition.value.link.Down? ==> Occurs(h, i, k, LinkRead(false))
  {
    if k == i + 1 {
      assert Enabled(ss[i], h[i]);
    } else {
      hide Apply, Enabled;
      DownWasRead(h, ss, i, k - 1);
      LinkStep(ss[k - 1], h[k - 1]);
      OccursStep(h, i, k - 1, LinkRead(false));
    }
  }

  // An acquisition that finds a client installed opens another one only after
  // that client reported its link down.
  lemma LiveSessionIsKept(h: seq<Event>, ss: seq<State>, i: nat, k: nat)
    requires Run(h, ss)
    requires i < k < |h| && h[i].AcquisitionStarted? && SameAcquisition(h, i, k)
    requires ss[i].owner.Installed? && h[k].Created?
    ensures Occurs(h, i, k, LinkRead(false))
  {
    hide Apply, Enabled;
    DownWasRead(h, ss, i, k);
    ReplacementGuard(ss[k], h[k]);
  }

  lemma UpStep(s: State, e: Event)
    requires Enabled(s, e) && !Boundary(e) && s.acquisition.Some?
    ensures NextAcquisition(s, e).Some?
    ensures e == LinkRead(true) ==> NextAcquisition(s, e).value.link.Up?
    ensures s.acquisition.value.link.Up? && e != LinkRead(false) ==> NextAcquisition(s, e).value.link.Up?
  {
  }

  lemma {:induction false} UpWasRead(h: seq<Event>, ss: seq<State>, i: nat, m: nat, k: nat)
    requires Run(h, ss)
    requires i < m < k <= |h| && h[i].AcquisitionStarted? && SameAcquisition(h, i, k)
    requires h[m] == LinkRead(true) && !Occurs(h, m, k, LinkRead(false))
    ensures |ss| == |h| + 1 && ss[k].acquisition.Some? && ss[k].acquisition.value.link.Up?
  {
    hide Apply, Enabled, Run, NextAcquisition;
    StepAt(h, ss, k - 1);
    ApplyAcquisition(ss[k - 1], h[k - 1]);
    if k == m + 1 {
      EndedTracked(h, ss, i, m);
    } else {
      UpWasRead(h, ss, i, m, k - 1);
    }
    UpStep(ss[k - 1], h[k - 1]);
  }

  lemma UpGuard(s: State, e: Event)
    requires Enabled(s, e) && s.acquisition.Some? && s.acquisition.value.link.Up?
    ensures !e.Created? && e != AcquisitionEnded(false)
  {
  }

  // Once the installed client reported its link up, the acquisition opens no
  // other one and does not end without one, unless it later reported it down.
  lemma UsableSessionIsKept(h: seq<Event>, ss: seq<State>, i: nat, m: nat, k: nat)
    requires Run(h, ss)
    requires i < m < k < |h| && h[i].AcquisitionStarted? && SameAcquisition(h, i, k)
    requires h[m] == LinkRead(true) && !Occurs(h, m, k, LinkRead(false))
    ensures !h[k].Created? && h[k] != AcquisitionEnded(false)
  {
    hide Apply, Enabled, Run;
    UpWasRead(h, ss, i, m, k);
    StepAt(h, ss, k);
    UpGuard(ss[k], h[k]);
  }

  lemma UpOnlyIfRead(s: State, e: Event)
    requires Enabled(s, e) && !Boundary(e) && s.acquisition.Some?
    ensures NextAcquisition(s, e).Some?
    ensures NextAcquisition(s, e).value.link.Up? ==> s.acquisition.value.link.Up? || e == LinkRead(true)
  {
  }

  lemma LinkBegins(s: State, e: Event)
    requires Enabled(s, e) && e.AcquisitionStarted?
    ensures NextAcquisition(s, e).Some? && !NextAcquisition(s, e).value.link.Up?
  {
  }

  lemma {:induction false} UpOnlyOnceRead(h: seq<Event>, ss: seq<State>, i: nat, k: nat)
    requires Run(h, ss)
    requires i < k <= |h| && h[i].AcquisitionStarted? && SameAcquisition(h, i, k)
    ensures |ss| == |h| + 1 && ss[k].acquisition.Some?
    ensures ss[k].acquisition.value.link.Up? ==> Occurs(h, i, k, LinkRead(true))
  {
    hide Apply, Enabled, Run, NextAcquisition;
    StepAt(h, ss, k - 1);
    ApplyAcquisition(ss[k - 1], h[k - 1]);
    if k == i + 1 {
      LinkBegins(ss[i], h[i]);
    } else {
      UpOnlyOnceRead(h, ss, i, k - 1);
      UpOnlyIfRead(ss[k - 1], h[k - 1]);
      OccursStep(h, i, k - 1, LinkRead(true));
    }
  }

  lemma LiveGuard(s: State, e: Event)
    requires Enabled(s, e) && e == AcquisitionEnded(true) && s.acquisition.Some?
    ensures s.owner.Installed?
    ensures var a := s.acquisition.value; a.link.Up? || a.cachedConnects + a.freshConnects > 0
  {
  }

  // A client is returned only if it is installed, and reported its link up or
  // was connected by this acquisition.
  lemma LiveIsEarned(h: seq<Event>, ss: seq<State>, i: nat, k: nat)
    requires Run(h, ss)
    requires i < k < |h| && h[i].AcquisitionStarted? && SameAcquisition(h, i, k) && h[k] == AcquisitionEnded(true)
    ensures |ss| == |h| + 1 && ss[k].owner.Installed?
    ensures Occurs(h, i, k, LinkRead(true)) || Connects(h, i, k) >= 1
  {
    hide Apply, Enabled, Run, Accounted;
    UpOnlyOnceRead(h, ss, i, k);
    CountsTracked(h, ss, i, k);
    StepAt(h, ss, k);
    LiveGuard(ss[k], h[k]);
  }

  // An acquisition that may scan gives up, with nothing owned and no stop, only
  // after its scan, or after the deadline, a discard or a setup failure.
  lemma GivesUpOnlyAfterScan(h: seq<Event>, ss: seq<State>, i: nat, k: nat)
    requires Run(h, ss)
    requires i < k < |h| && h[i].AcquisitionStarted? && SameAcquisition(h, i, k)
    requires h[k] == AcquisitionEnded(false) && h[i].active
    requires !ss[k].closing && ss[k].owner.Nobody?
    ensures Scans(h, i, k) == 1 || Excused(h, i, k)
  {
    hide EndsPolicy;
    AcquisitionTracked(h, ss, i, k);
    assert Enabled(ss[k], h[k]);
  }

  // ---- Limits of what holds -----------------------------------------------

  // The connect timeout is armed a moment after its length was decided.  In
  // every acquisition it ends within the deadline exactly if no time passed in
  // between or the full phase cap still fits; it is late by that moment at most.
  lemma ArmedWindow(h: seq<Event>, ss: seq<State>, i: nat, k: nat)
    requires Run(h, ss)
    requires i < k < |h| && h[i].AcquisitionStarted? && SameAcquisition(h, i, k)
    requires h[k].ConnectStarted?
    ensures var deadline := h[i].at + h[i].budget;
            var cap := if Scans(h, i, k) == 1 then FRESH_SECONDS else CACHED_SECONDS;
            && (h[k].armed + h[k].window <= deadline <==>
                  h[k].armed == h[k].at || h[k].armed + cap <= deadline)
            && h[k].armed + h[k].window <= deadline + (h[k].armed - h[k].at)
  {
    hide Apply, Enabled, Run, Accounted;
    CountsTracked(h, ss, i, k);
    StepAt(h, ss, k);
    GrantGuard(ss[k], h[k]);
  }

  lemma GrantGuard(s: State, e: Event)
    requires Enabled(s, e) && e.ConnectStarted? && s.acquisition.Some?
    ensures e.at <= e.armed && e.window == Min(PhaseCap(s.acquisition.value), Deadline(s.acquisition.value) - e.at)
  {
  }

  lemma Step(h: seq<Event>, s: State, e: Event) returns (h': seq<Event>, s': State)
    requires Accepts(h, s) && Enabled(s, e)
    ensures h' == h + [e] && s' == Apply(s, e) && Accepts(h', s')
  {
    hide Accepts, Enabled, Apply;
    AcceptsExtend(h, s, e);
    h', s' := h + [e], Apply(s, e);
  }

  // ---- The gate of an inventory read --------------------------------------

  // The read that passed its gate at g has neither the mutex nor given up.
  ghost predicate StillQueued(h: seq<Event>, g: nat, x: nat) {
    forall m :: g < m < x && m < |h| ==> !h[m].Abandoned? && h[m] != Acquired(Inventory)
  }

  // The read that passed its gate at g exits at x: it was cancelled in the
  // queue, or it got the mutex and releases it.
  ghost predicate Exits(h: seq<Event>, g: nat, x: nat) {
    && g < x < |h| && h[g].GatePassed?
    && if h[x].Abandoned? then StillQueued(h, g, x)
       else
         && h[x].Released?
         && exists i :: g < i < x && h[i] == Acquired(Inventory) && StillQueued(h, g, i) && NoRelease(h, i, x)
  }

  // A read passes its gate only with the mutex free and no stop announced.
  lemma GateIsOpen(h: seq<Event>, ss: seq<State>, g: nat)
    requires Run(h, ss) && g < |h| && h[g].GatePassed?
    ensures |ss| == |h| + 1 && ss[g].holder.None? && !ss[g].closing
  {
    assert Enabled(ss[g], h[g]);
  }

  lemma FreeMutexIsTaken(h: seq<Event>, ss: seq<State>, g: nat, x: nat)
    requires Run(h, ss) && Exits(h, g, x) && h[g] == GatePassed(0)
    ensures !h[x].Abandoned?
  {
    assert Enabled(ss[g], h[g]) && ss[g + 1] == Apply(ss[g], h[g]);
    assert Enabled(ss[g + 1], h[g + 1]);
  }

  // A read that found no task before it, or was not cancelled in the queue,
  // leaves no installed client, and says exactly whether it is all torn down.
  lemma GatedReadCloses(h: seq<Event>, ss: seq<State>, g: nat, x: nat)
    requires Run(h, ss) && Exits(h, g, x)
    requires h[g].ahead == 0 || !h[x].Abandoned?
    ensures !ss[x + 1].owner.Installed?
    ensures h[x].Released? && h[x].verdict.Closed? && h[x].verdict.cleaned == ss[x + 1].owner.Nobody?
  {
    hide Run;
    if h[g].ahead == 0 {
      FreeMutexIsTaken(h, ss, g, x);
    }
    var i :| g < i < x && h[i] == Acquired(Inventory) && StillQueued(h, g, i) && NoRelease(h, i, x);
    InventoryCloses(h, ss, i, x, h[x].verdict);
  }

  // Every read with this many tasks before it, abandoned or not, exits without
  // an installed client.
  ghost predicate AlwaysCloses(ahead: nat, abandoned: bool) {
    forall h: seq<Event>, ss: seq<State>, g: nat, x: nat ::
      Run(h, ss) && Exits(h, g, x) && h[g].ahead == ahead && h[x].Abandoned? == abandoned ==>
        !ss[x + 1].owner.Installed?
  }

  // Exactly the reads that find a task before them and are cancelled in the
  // queue may leave a client installed.
  lemma GateDecides(ahead: nat, abandoned: bool)
    ensures AlwaysCloses(ahead, abandoned) <==> ahead == 0 || !abandoned
  {
    if ahead == 0 || !abandoned {
      forall h: seq<Event>, ss: seq<State>, g: nat, x: nat
        | Run(h, ss) && Exits(h, g, x) && h[g].ahead == ahead && h[x].Abandoned? == abandoned
        ensures !ss[x + 1].owner.Installed?
      {
        hide Run, Exits;
        ExitIsInside(h, g, x);
        GatedReadCloses(h, ss, g, x);
      }
    } else {
      var h, s := QueuedReadMayLeaveClient(ahead);
      var ss :| Run(h, ss) && ss[|h|] == s;
      assert Exits(h, 0, |h| - 1);
    }
  }

  lemma ExitIsInside(h: seq<Event>, g: nat, x: nat)
    requires Exits(h, g, x)
    ensures g < x < |h| && h[g].GatePassed?
  {
  }

  // A history of a read that passed its gate at its first event and is queued.
  ghost predicate Waiting(h: seq<Event>, s: State, ahead: nat) {
    Accepts(h, s) && |h| > 0 && h[0] == GatePassed(ahead) && StillQueued(h, 0, |h|) && s.gate.Queued?
  }

  lemma WaitOn(h: seq<Event>, s: State, e: Event, ahead: nat) returns (h': seq<Event>, s': State)
    requires Waiting(h, s, ahead) && Enabled(s, e)
    requires !e.Abandoned? && e != Acquired(Inventory) && !e.GatePassed?
    ensures Waiting(h', s', ahead) && s' == Apply(s, e)
  {
    hide Accepts, Enabled;
    h', s' := Step(h, s, e);
  }

  lemma WaiterAcquires(ahead: nat) returns (h: seq<Event>, s: State)
    requires ahead > 0
    ensures Waiting(h, s, ahead)
    ensures s == INITIAL.(holder := Some(Maintenance), serial := 1, gate := Queued, acquisition :=
                 Some(Acquisition(false, 0.0, 16.0, 0.0, 0.0, Between, 0, 0, 0, NoClient, Unsought, false, false,
                                  false, 0)))
  {
    hide Accepts;
    AcceptsInitial();
    h, s := Step([], INITIAL, GatePassed(ahead));
    h, s := WaitOn(h, s, Acquired(Maintenance), ahead);
    h, s := WaitOn(h, s, AcquisitionStarted(false, 0.0, 16.0), ahead);
  }

  lemma WaiterCreatesClient(ahead: nat) returns (h: seq<Event>, s: State)
    requires ahead > 0
    ensures Waiting(h, s, ahead)
    ensures s.holder == Some(Maintenance) && s.owner == Pending(1) && s.created == 1 && s.interruptions == 0
    ensures !s.closing && !s.up && !s.clean && s.attempt == NO_ATTEMPT
    ensures s.acquisition == Some(Acquisition(false, 0.0, 16.0, 0.0, 0.0, Between, 0, 0, 0, NoClient, Usable, false,
                                              false, false, 0))
  {
    hide Waiting;
    h, s := WaiterAcquires(ahead);
    h, s := WaitOn(h, s, RouteRead(true, false), ahead);
    assert s.gate.Queued?;
    h, s := WaitOn(h, s, Created(1), ahead);
  }

  lemma WaiterConnects(ahead: nat) returns (h: seq<Event>, s: State)
    requires ahead > 0
    ensures Waiting(h, s, ahead)
    ensures s.holder == Some(Maintenance) && s.owner == Pending(1) && s.created == 1 && s.interruptions == 0
    ensures !s.closing && !s.up && s.clean && s.attempt == NO_ATTEMPT
    ensures s.acquisition.Some?
    ensures var a := s.acquisition.value;
            a.phase.Between? && !a.ended && a.link.NoClient? && a.cachedConnects == 1
  {
    hide Accepts, StillQueued;
    h, s := WaiterCreatesClient(ahead);
    h, s := WaitOn(h, s, ConnectStarted(0.0, 0.0, 16.0), ahead);
    h, s := WaitOn(h, s, ConnectEnded(1.0, Return(()), false, false, false), ahead);
  }

  lemma WaiterAdopts(ahead: nat) returns (h: seq<Event>, s: State)
    requires ahead > 0
    ensures Waiting(h, s, ahead)
    ensures s.holder == Some(Maintenance) && s.owner == Installed(1) && s.up && s.interruptions == 0
    ensures s.attempt == NO_ATTEMPT && s.acquisition.Some?
    ensures var a := s.acquisition.value;
            a.phase.Between? && !a.ended && a.link.NoClient? && a.cachedConnects == 1
  {
    hide Accepts, StillQueued;
    h, s := WaiterConnects(ahead);
    h, s := WaitOn(h, s, Adopted(1), ahead);
    h, s := WaitOn(h, s, Announced(true), ahead);
  }

  lemma WaiterLeavesClient(ahead: nat) returns (h: seq<Event>, s: State)
    requires ahead > 0
    ensures Waiting(h, s, ahead) && s.holder.None? && s.owner == Installed(1) && s.up
  {
    hide Accepts, StillQueued;
    h, s := WaiterAdopts(ahead);
    h, s := WaitOn(h, s, AcquisitionEnded(true), ahead);
    h, s := WaitOn(h, s, Released(Completed), ahead);
  }

  // For any number of tasks before it: a read passes its gate while the mutex
  // is on its way to the maintenance loop, which opens a session and leaves it,
  // and the read is cancelled in the queue: it exits with an installed client.
  lemma QueuedReadMayLeaveClient(ahead: nat) returns (h: seq<Event>, s: State)
    requires ahead > 0
    ensures Accepts(h, s) && s.holder.None? && s.owner.Installed?
    ensures Exits(h, 0, |h| - 1) && h[0] == GatePassed(ahead) && h[|h| - 1] == Abandoned
  {
    hide Accepts;
    h, s := WaiterLeavesClient(ahead);
    h, s := Step(h, s, Abandoned);
  }
}
