// The protocol of one BLE session, as an automaton over recorded events.
//
// `Enabled` says which event may follow which state and `Apply` what it does.
// The connection records an event at each step it takes and each step the
// environment takes, and keeps its history a run of this automaton; the
// theorems about every run are in LedgerTheorems.dfy.
module Ledger {
  import opened Basics

  datatype Action = Lock | Unlock

  // The operations that take the connection's mutex.
  datatype Op =
    | Control(action: Action)
    | Query
    | OperationLog
    | Management
    | Inventory
    | Maintenance
    | Shutdown

  // How the holder of the mutex left.  `Aborted` is CancelledError, `Refused`
  // any other exception but ControlOutcomeUnknownError; `Closed` ends an inventory read, `Answered`
  // a query and `Fetched` a log fetch, with what they return.
  datatype Verdict =
    | Completed
    | OutcomeUnknown
    | Refused
    | Aborted
    | Closed(cleaned: bool, read: bool)
    | Answered(state: Option<Option<bool>>)
    | Fetched(done: bool)

  datatype Event =
    // the mutex, and the gate of an inventory read before it
    | GatePassed(ahead: nat)
    | Abandoned
    | Acquired(op: Op)
    | Released(verdict: Verdict)
    // one acquisition
    | AcquisitionStarted(active: bool, at: real, budget: real)
    | LinkRead(connected: bool)
    | RouteRead(cached: bool, stale: bool)
    | ScanStarted(at: real, seconds: int)
    | ScanEnded(at: real, found: bool)
    | OutOfTime(at: real)
    | ConnectStarted(at: real, armed: real, window: real)
    | ConnectEnded(at: real, ended: Exit<()>, expired: bool, cancelled: bool, requested: bool)
    | Discarded
    | AcquisitionEnded(live: bool)
    // ownership
    | Created(generation: nat)
    | Adopted(generation: nat)
    | Demoted(generation: nat)
    | TeardownEvidence(confirmed: bool)
    | TeardownReturned
    | TeardownRaised
    | TeardownFailed(generation: nat)
    | Retired(generation: nat)
    // the environment
    | Announced(up: bool)
    | Stopped
    | Restarted
    | CancelRequested
    | CallCancelled
    | Interrupted
    // one control request
    | OperationStarted
    | ControlWritten(command: Command)
    | ReplyMatched
    | ReplyAccepted
    | ReplyRejected
    | OperationEnded
    | ReconciliationStarted
    | LinkSeen(connected: bool)
    | ReconciliationEnded
    | StateRead(locked: Option<bool>)
    | QueryFailed(error: Error)
    | CallEnded(ended: Exit<()>)

  datatype Owner = Nobody | Pending(generation: nat) | Installed(generation: nat)

  // What is known of the pending client's teardown: nothing was tried; the
  // evidence was missing, and the disconnect may be tried; it raised; and the
  // evidence was still missing; or it is confirmed.
  datatype Teardown = Untried | Asked | Raised | Denied | Confirmed

  // The one inventory read that may be on its way to the mutex: it takes a free
  // mutex at once, or waits behind the tasks that were there before it.
  datatype Gate = NoRead | AtOnce | Queued

  datatype Phase = Between | Scanning(window: real) | Connecting(window: real)

  // The client that was installed when the acquisition began.
  datatype Link = NoClient | Unread | Up | Down

  // Whether a candidate is in hand.
  datatype Route = Unsought | Missing | Usable

  // One acquisition: its clock and what it has used up.  `inside` is the time
  // spent inside windows from when they were armed; the rest of the elapsed
  // time is teardown, scheduling and overruns.
  datatype Acquisition = Acquisition(
    active: bool,
    started: real,
    budget: real,
    last: real,
    inside: real,
    phase: Phase,
    scans: nat,
    cachedConnects: nat,
    freshConnects: nat,
    link: Link,
    route: Route,
    stopped: bool,  // a setup failure, a discard or the deadline ends it
    ended: bool,    // it has returned
    live: bool,     // and what it returned is a client
    base: nat)      // the interruptions before it

  // The one acquisition of a reconciliation, if its client had dropped.
  datatype Search = NotBegun | Begun | Found | NotFound

  // One explicit control request.
  datatype Attempt = Attempt(
    started: bool,
    running: bool,
    written: bool,
    matched: bool,    // a reply to the control frame was seen
    accepted: bool,
    rejected: bool,
    withdrawn: bool,  // its caller was cancelled before the write
    reconciling: bool,
    since: nat,       // the interruptions before the reconciliation
    linked: Option<bool>,  // whether the written client was seen connected
    asked: bool,
    reconciled: bool,
    confirmed: bool)

  // What an operation got: its latest state read, its latest failed query, and
  // its own SDK call.
  datatype Work = Work(answer: Option<Option<bool>>, failure: Option<Error>, call: Option<Exit<()>>)

  datatype State = State(
    created: nat,
    owner: Owner,
    teardown: Teardown,
    clean: bool,
    up: bool,
    closing: bool,
    holder: Option<Op>,
    serial: nat,  // how often the mutex was acquired
    requested: bool,     // a cancellation of the holder has a cause
    interruptions: nat,  // how often one was delivered to it
    failures: nat,       // its teardowns that left a client owned
    gate: Gate,
    work: Work,
    acquisition: Option<Acquisition>,
    attempt: Attempt,
    search: Search)

  const SCAN_SECONDS := 25
  const CACHED_SECONDS := 16.0
  const FRESH_SECONDS := 42.0

  const NO_ATTEMPT :=
    Attempt(false, false, false, false, false, false, false, false, 0, None, false, false, false)

  const NO_WORK := Work(None, None, None)

  const INITIAL :=
    State(0, Nobody, Untried, false, false, false, None, 0, false, 0, 0, NoRead, NO_WORK, None, NO_ATTEMPT,
          NotBegun)

  function Deadline(a: Acquisition): real {
    a.started + a.budget
  }

  // A connect after the scan uses the fresh route, one before it the cached.
  function PhaseCap(a: Acquisition): real {
    if a.scans == 1 then FRESH_SECONDS else CACHED_SECONDS
  }

  // One cached connect, and one fresh connect after the scan.
  predicate MayConnect(a: Acquisition) {
    !a.stopped && a.route.Usable? && if a.scans == 1 then a.freshConnects == 0 else a.cachedConnects == 0
  }

  // A setup failure that is neither the SDK's own error nor the phase deadline.
  predicate SetupFailure(ended: Exit<()>, expired: bool) {
    ended == Raise(Other) || (ended == Raise(TimedOut) && !expired)
  }

  // The body of the connect's timeout was left by a cancellation ...
  predicate CutOff(ended: Exit<()>, expired: bool, cancelled: bool) {
    ended == Raise(Cancelled) || (ended.Return? && (expired || cancelled))
  }

  // ... which was the timeout's own, or came from outside.
  predicate OwnExpiry(ended: Exit<()>, expired: bool, cancelled: bool, requested: bool) {
    CutOff(ended, expired, cancelled) && expired && !requested
  }

  predicate CutOutside(ended: Exit<()>, expired: bool, cancelled: bool, requested: bool) {
    CutOff(ended, expired, cancelled) && !(expired && !requested)
  }

  // Nothing is left that the acquisition policy would still try.
  predicate Spent(a: Acquisition) {
    || a.stopped
    || if a.scans == 1 then a.route.Missing? || a.freshConnects == 1
       else !a.active && (a.route.Missing? || a.cachedConnects == 1)
  }

  // What each operation may spend on an acquisition, and whether it may scan.
  predicate Policy(s: State, active: bool, budget: real)
    requires s.holder.Some?
  {
    match s.holder.value
    case Control(_) => active && budget == if s.attempt.reconciling then 48.0 else 60.0
    case Query => budget == if active then 48.0 else 16.0
    case Management => budget == 60.0
    case Inventory => active && budget == 16.0
    case OperationLog => !active && budget == 16.0
    case Maintenance => !active && budget == 16.0
    case Shutdown => false
  }

  // The state asked for by an explicit action, as a later query reports it.
  predicate Commanded(op: Op, locked: Option<bool>) {
    op.Control? && locked == Some(op.action.Lock?)
  }

  // What must be claimed about a control request from what was observed of it.
  predicate VerdictFits(attempt: Attempt, verdict: Verdict) {
    var done := attempt.accepted || attempt.confirmed;
    match verdict
    case Completed => done
    case OutcomeUnknown => !done && !attempt.rejected && attempt.written && attempt.reconciled
    case Refused => !done && (!attempt.written || attempt.rejected) && !attempt.withdrawn
    case Aborted => !done && (!attempt.written || attempt.rejected)
    case _ => false
  }

  predicate BetweenPhases(acquisition: Option<Acquisition>) {
    acquisition.Some? ==> acquisition.value.phase.Between?
  }

  // The last acquisition returned, or was cut off by an interruption.
  predicate Left(s: State) {
    s.acquisition.Some? ==> s.acquisition.value.ended || s.interruptions > s.acquisition.value.base
  }

  // The last acquisition returned a client, or none.
  predicate Served(s: State) {
    s.acquisition.Some? && s.acquisition.value.live
  }

  predicate Unserved(s: State) {
    s.acquisition.Some? && s.acquisition.value.ended && !s.acquisition.value.live
  }

  // The operation's own call of the SDK returned.
  predicate Succeeded(call: Option<Exit<()>>) {
    call.Some? && call.value.Return?
  }

  predicate Interrupts(s: State) {
    s.interruptions > 0
  }

  predicate MayRelease(s: State, verdict: Verdict) {
    && s.holder.Some?
    && BetweenPhases(s.acquisition) && Left(s)
    && !s.attempt.running
    && !s.attempt.reconciling
    && match s.holder.value
       case Control(_) =>
         && VerdictFits(s.attempt, verdict)
         && (s.attempt.started || Interrupts(s) || Unserved(s))
         && (verdict.Completed? ==> s.owner.Installed?)
         && (verdict.Aborted? ==> Interrupts(s))
         && (s.attempt.withdrawn ==> s.owner.Installed?)
       case Query =>
         && verdict == (if Interrupts(s) then Aborted else Answered(s.work.answer))
         && (s.work.answer.Some? || s.work.failure.Some? || Unserved(s) || Interrupts(s))
         && (s.work.answer.Some? || s.work.failure == Some(Cancelled) ==> s.owner.Installed?)
       case OperationLog =>
         && verdict == (if Interrupts(s) then Aborted else Fetched(Succeeded(s.work.call)))
         && (s.work.call.Some? || Unserved(s) || Interrupts(s))
         && (s.work.call.Some? ==> s.owner.Installed?)
       case Management =>
         && verdict == (if Succeeded(s.work.call) then Completed else if Interrupts(s) then Aborted else Refused)
         && (s.work.call.Some? || Unserved(s) || Interrupts(s))
         && (Succeeded(s.work.call) || s.work.call == Some(Raise(Cancelled)) ==> s.owner.Installed?)
       case Inventory =>
         && verdict.Closed? && verdict.cleaned == s.owner.Nobody? && !s.owner.Installed?
         && verdict.read == (Succeeded(s.work.call) && !Interrupts(s))
         && (s.work.call.Some? || Unserved(s) || Interrupts(s))
       case Maintenance =>
         if Interrupts(s) then verdict.Aborted?
         else verdict.Completed? && s.acquisition.Some? && (Served(s) ==> s.owner.Installed?)
       case Shutdown =>
         if Interrupts(s) then verdict.Aborted?
         else if s.owner.Nobody? then verdict.Completed?
         else verdict.Refused? && s.failures >= 2
  }

  predicate Acquiring(s: State) {
    && s.holder.Some?
    && s.acquisition.Some?
    && s.acquisition.value.phase.Between?
    && !s.acquisition.value.ended
  }

  // While "up" is announced and nothing is owned, only "down" may come next.
  predicate AnnouncementOwed(s: State) {
    s.up && s.owner.Nobody?
  }

  predicate Enabled(s: State, e: Event) {
    && (AnnouncementOwed(s) ==> e == Announced(false))
    && (s.gate.AtOnce? ==> e == Acquired(Inventory))
    && match e
       case GatePassed(_) => s.holder.None? && s.gate.NoRead? && !s.closing
       case Abandoned => s.gate.Queued?
       case Acquired(op) => s.holder.None? && (op.Inventory? ==> !s.gate.NoRead?)
       case Released(verdict) => MayRelease(s, verdict)
       case AcquisitionStarted(active, at, budget) =>
         && s.holder.Some?
         && Policy(s, active, budget)
         && BetweenPhases(s.acquisition) && Left(s)
         && if s.attempt.reconciling then s.attempt.linked == Some(false) && s.search.NotBegun?
            else s.acquisition.None?
       case LinkRead(_) => Acquiring(s) && s.owner.Installed?
       case RouteRead(_, _) =>
         Acquiring(s) && s.owner.Nobody? && s.acquisition.value.scans == 0 && s.acquisition.value.route.Unsought?
       case ScanStarted(at, seconds) =>
         && Acquiring(s)
         && s.owner.Nobody?
         && var a := s.acquisition.value;
            && !a.stopped && a.active && a.scans == 0
            && (a.route.Missing? || a.cachedConnects == 1)
            && a.last <= at
            && 1 <= seconds && seconds == Min(SCAN_SECONDS as real, Deadline(a) - at).Floor
       case ScanEnded(at, _) =>
         && s.holder.Some?
         && s.acquisition.Some?
         && s.acquisition.value.phase.Scanning?
         && s.acquisition.value.last <= at
       case OutOfTime(at) =>
         && Acquiring(s)
         && var a := s.acquisition.value;
            && a.last <= at
            && if a.active && a.scans == 0 then Deadline(a) - at < 1.0 else Deadline(a) <= at
       case ConnectStarted(at, armed, window) =>
         && Acquiring(s)
         && s.owner == Pending(s.created)
         && !s.clean
         && var a := s.acquisition.value;
            && MayConnect(a)
            && a.last <= at <= armed
            && 0.0 < window
            && window == Min(PhaseCap(a), Deadline(a) - at)
       case ConnectEnded(at, _, _, _, _) =>
         && s.holder.Some?
         && s.acquisition.Some?
         && s.acquisition.value.phase.Connecting?
         && s.acquisition.value.last <= at
         && s.owner == Pending(s.created)
       case Discarded => Acquiring(s) && s.closing
       case AcquisitionEnded(live) =>
         && Acquiring(s)
         && (if live then s.owner.Installed?
             else s.closing || s.owner.Pending? || (s.owner.Nobody? && Spent(s.acquisition.value)))
         && var a := s.acquisition.value;
            && (a.link.Up? ==> live)
            && (live ==> a.link.Up? || a.cachedConnects + a.freshConnects > 0)
       case Created(g) =>
         && Acquiring(s)
         && s.owner.Nobody?
         && !s.closing
         && g == s.created + 1
         && var a := s.acquisition.value;
            MayConnect(a) && (a.link.NoClient? || a.link.Down?)
       case Adopted(g) => s.owner == Pending(g) && s.clean && !s.closing && Acquiring(s)
       case Demoted(g) => s.owner == Installed(g) && s.holder.Some?
       case TeardownEvidence(_) => s.owner.Pending? && s.holder.Some?
       case TeardownReturned => s.owner.Pending? && s.holder.Some? && s.teardown.Asked?
       case TeardownRaised => s.owner.Pending? && s.holder.Some? && s.teardown.Asked?
       case TeardownFailed(g) =>
         && s.owner == Pending(g) && s.holder.Some?
         && (s.teardown.Denied? || (s.teardown.Raised? && s.requested))
       case Retired(g) => s.owner == Pending(g) && s.holder.Some? && s.teardown.Confirmed?
       case Announced(up) => up != s.up && (up ==> s.owner.Installed?)
       case Stopped => true
       case Restarted => true
       case CancelRequested => s.holder.Some?
       case CallCancelled => s.holder.Some?
       case Interrupted => s.holder.Some? && s.requested
       case OperationStarted =>
         && s.holder.Some?
         && s.holder.value.Control?
         && !s.attempt.started
         && s.owner.Installed?
         && s.acquisition.Some?
         && s.acquisition.value.live
       case ControlWritten(command) =>
         && s.holder.Some? && s.holder.value.Control?
         && command == (match s.holder.value.action case Lock => LockBolt case Unlock => UnlockBolt)
         && s.attempt.running && !s.attempt.written && !s.attempt.withdrawn
       case ReplyMatched => s.holder.Some? && s.attempt.running && s.attempt.written
       case ReplyAccepted => s.holder.Some? && s.attempt.running && s.attempt.matched
       case ReplyRejected => s.holder.Some? && s.attempt.running && s.attempt.matched
       case OperationEnded => s.holder.Some? && s.attempt.running
       case ReconciliationStarted =>
         && s.holder.Some?
         && s.attempt.written
         && !s.attempt.running
         && !s.attempt.reconciling
         && !s.attempt.reconciled
       case ReconciliationEnded =>
         && s.holder.Some?
         && s.attempt.reconciling
         && (s.attempt.asked || s.search.NotFound? || s.interruptions > s.attempt.since)
       case LinkSeen(_) =>
         s.holder.Some? && s.attempt.reconciling && s.attempt.linked.None? && s.owner.Installed?
       case StateRead(_) => MayAsk(s) && s.owner.Installed?
       case QueryFailed(_) => MayAsk(s)
       case CallEnded(_) =>
         && s.holder.Some? && Served(s)
         && (s.holder.value.Management? || s.holder.value.OperationLog? || s.holder.value.Inventory?)
  }

  // A query asks a client its acquisition returned; a reconciliation the
  // written client if it is connected, or else its replacement.
  predicate MayAsk(s: State) {
    && s.holder.Some?
    && match s.holder.value
       case Control(_) => s.attempt.reconciling && (s.attempt.linked == Some(true) || s.search.Found?)
       case Query => Served(s)
       case _ => false
  }

  function OpenWindow(a: Acquisition, at: real, phase: Phase): Acquisition {
    a.(phase := phase, last := at)
  }

  function CloseWindow(a: Acquisition, at: real, window: real): Acquisition {
    a.(phase := Between, inside := a.inside + Min(at - a.last, window), last := at)
  }

  function NextOwner(owner: Owner, e: Event): Owner {
    match e
    case Created(g) => Pending(g)
    case Adopted(g) => Installed(g)
    case Demoted(g) => Pending(g)
    case Retired(_) => Nobody
    case _ => owner
  }

  function NextGate(gate: Gate, e: Event): Gate {
    match e
    case GatePassed(ahead) => if ahead == 0 then AtOnce else Queued
    case Abandoned => NoRead
    case Acquired(op) => if op.Inventory? then NoRead else gate
    case _ => gate
  }

  // The SDK's evidence, or a disconnect that returned, confirms a teardown; the
  // evidence is read before the disconnect, and again if that raised.
  function NextTeardown(teardown: Teardown, e: Event): Teardown {
    match e
    case Created(_) => Untried
    case Demoted(_) => Untried
    case TeardownEvidence(confirmed) =>
      if confirmed then Confirmed
      else if teardown.Untried? then Asked
      else if teardown.Raised? then Denied
      else teardown
    case TeardownReturned => Confirmed
    case TeardownRaised => Raised
    case TeardownFailed(_) => Untried
    case Retired(_) => Untried
    case _ => teardown
  }

  // The pending client's connect returned in time, and nothing came since.
  function NextClean(clean: bool, e: Event): bool {
    match e
    case ConnectEnded(_, ended, expired, cancelled, _) => ended.Return? && !expired && !cancelled
    case Created(_) => false
    case Adopted(_) => false
    case Demoted(_) => false
    case TeardownFailed(_) => false
    case Retired(_) => false
    case _ => clean
  }

  function NextAcquisition(s: State, e: Event): Option<Acquisition>
    requires Enabled(s, e)
  {
    match e
    case Acquired(_) => None
    case Released(_) => None
    case AcquisitionStarted(active, at, budget) =>
      var link := if s.owner.Installed? then Unread else NoClient;
      Some(Acquisition(active, at, budget, at, 0.0, Between, 0, 0, 0, link, Unsought, false, false, false,
                       s.interruptions))
    case LinkRead(connected) =>
      Some(s.acquisition.value.(link := if connected then Up else Down))
    case RouteRead(cached, stale) =>
      var a := s.acquisition.value;
      Some(a.(route := if cached && !(a.active && stale) then Usable else Missing))
    case ScanStarted(at, seconds) =>
      var a := s.acquisition.value;
      Some(OpenWindow(a.(scans := a.scans + 1, route := Unsought), at, Scanning(seconds as real)))
    case ScanEnded(at, found) =>
      var a := s.acquisition.value;
      Some(CloseWindow(a, at, a.phase.window).(route := if found then Usable else Missing))
    case OutOfTime(at) => Some(s.acquisition.value.(last := at, stopped := true))
    case ConnectStarted(_, armed, window) =>
      var a := s.acquisition.value;
      var b := if a.scans == 1 then a.(freshConnects := a.freshConnects + 1)
               else a.(cachedConnects := a.cachedConnects + 1);
      Some(OpenWindow(b, armed, Connecting(window)))
    case ConnectEnded(at, ended, expired, _, _) =>
      var a := CloseWindow(s.acquisition.value, at, s.acquisition.value.phase.window);
      Some(a.(stopped := a.stopped || SetupFailure(ended, expired)))
    case Discarded => Some(s.acquisition.value.(stopped := true))
    case AcquisitionEnded(live) => Some(s.acquisition.value.(ended := true, live := live))
    case _ => s.acquisition
  }

  function NextAttempt(a: Attempt, op: Option<Op>, interruptions: nat, e: Event): Attempt {
    if e.Acquired? || e.Released? then NO_ATTEMPT
    else if e.ReconciliationStarted? then
      a.(reconciling := true, asked := false, linked := None, since := interruptions)
    else
      a.(started := a.started || e.OperationStarted?,
         running := (a.running || e.OperationStarted?) && !e.OperationEnded?,
         written := a.written || e.ControlWritten?,
         matched := a.matched || e.ReplyMatched?,
         accepted := a.accepted || e.ReplyAccepted?,
         rejected := a.rejected || e.ReplyRejected?,
         withdrawn := a.withdrawn || (e.Interrupted? && a.running && !a.written),
         reconciling := a.reconciling && !e.ReconciliationEnded?,
         linked := if e.LinkSeen? then Some(e.connected) else a.linked,
         asked := a.asked || e.StateRead? || e.QueryFailed?,
         reconciled := a.reconciled || e.ReconciliationEnded?,
         confirmed :=
           a.confirmed || (e.StateRead? && a.reconciling && op.Some? && Commanded(op.value, e.locked)))
  }

  function NextSearch(search: Search, reconciling: bool, e: Event): Search {
    if e.Acquired? || e.Released? || e.ReconciliationStarted? then NotBegun
    else if !reconciling then search
    else if e.AcquisitionStarted? then Begun
    else if e.AcquisitionEnded? then if e.live then Found else NotFound
    else search
  }

  function NextWork(w: Work, e: Event): Work {
    if e.Acquired? || e.Released? then NO_WORK
    else if e.StateRead? then w.(answer := Some(e.locked))
    else if e.QueryFailed? then w.(failure := Some(e.error))
    else if e.CallEnded? then w.(call := Some(e.ended))
    else w
  }

  function NextRequested(requested: bool, e: Event): bool {
    if e.Acquired? then false
    else
      || requested || e.CancelRequested? || e.CallCancelled?
      || (e.ConnectEnded? && CutOutside(e.ended, e.expired, e.cancelled, e.requested))
  }

  function Apply(s: State, e: Event): State
    requires Enabled(s, e)
  {
    State(
      if e.Created? then e.generation else s.created,
      NextOwner(s.owner, e),
      NextTeardown(s.teardown, e),
      NextClean(s.clean, e),
      if e.Announced? then e.up else s.up,
      if e.Stopped? then true else if e.Restarted? then false else s.closing,
      if e.Acquired? then Some(e.op) else if e.Released? then None else s.holder,
      if e.Acquired? then s.serial + 1 else s.serial,
      NextRequested(s.requested, e),
      if e.Acquired? then 0 else if e.Interrupted? then s.interruptions + 1 else s.interruptions,
      if e.Acquired? then 0 else if e.TeardownFailed? then s.failures + 1 else s.failures,
      NextGate(s.gate, e),
      NextWork(s.work, e),
      NextAcquisition(s, e),
      NextAttempt(s.attempt, s.holder, s.interruptions, e),
      NextSearch(s.search, s.attempt.reconciling, e))
  }

  // ---- What single events change ------------------------------------------

  lemma AnnouncementChanges(s: State, up: bool)
    requires Enabled(s, Announced(up))
    ensures Apply(s, Announced(up)) == s.(up := up)
  {
    hide Enabled;
  }

  lemma RequestChanges(s: State, e: Event)
    requires Enabled(s, e) && (e.CancelRequested? || e.CallCancelled?)
    ensures Apply(s, e) == s.(requested := true)
  {
    hide Enabled;
  }

  lemma AcquiringChanges(s: State, op: Op)
    requires Enabled(s, Acquired(op))
    ensures Apply(s, Acquired(op)) ==
              s.(holder := Some(op), serial := s.serial + 1, requested := false, interruptions := 0, failures := 0,
                 gate := if op.Inventory? then NoRead else s.gate, work := NO_WORK, acquisition := None,
                 attempt := NO_ATTEMPT, search := NotBegun)
  {
    hide Enabled;
  }

  lemma ReleasingChanges(s: State, verdict: Verdict)
    requires Enabled(s, Released(verdict))
    ensures Apply(s, Released(verdict)) ==
              s.(holder := None, work := NO_WORK, acquisition := None, attempt := NO_ATTEMPT, search := NotBegun)
  {
    hide Enabled;
  }

  lemma DeadlineChanges(s: State, at: real)
    requires Enabled(s, OutOfTime(at))
    ensures s.acquisition.Some?
    ensures Apply(s, OutOfTime(at)) ==
              s.(acquisition := Some(s.acquisition.value.(last := at, stopped := true)))
  {
  }

  lemma EvidenceChanges(s: State, e: Event)
    requires Enabled(s, e) && (e.TeardownEvidence? || e.TeardownReturned? || e.TeardownRaised?)
    ensures Apply(s, e) == s.(teardown := NextTeardown(s.teardown, e))
  {
    hide Enabled;
  }

  lemma StopChanges(s: State)
    requires Enabled(s, Stopped)
    ensures Apply(s, Stopped) == s.(closing := true)
  {
    hide Enabled;
  }

  lemma RestartChanges(s: State)
    requires Enabled(s, Restarted)
    ensures Apply(s, Restarted) == s.(closing := false)
  {
    hide Enabled;
  }

  lemma CreationChanges(s: State, g: nat)
    requires Enabled(s, Created(g))
    ensures Apply(s, Created(g)) == s.(created := g, owner := Pending(g), teardown := Untried, clean := false)
  {
    hide Enabled;
  }

  lemma AdoptionChanges(s: State, g: nat)
    requires Enabled(s, Adopted(g))
    ensures Apply(s, Adopted(g)) == s.(owner := Installed(g), clean := false)
  {
    hide Enabled;
  }

  lemma DemotionChanges(s: State, g: nat)
    requires Enabled(s, Demoted(g))
    ensures Apply(s, Demoted(g)) == s.(owner := Pending(g), teardown := Untried, clean := false)
  {
    hide Enabled;
  }

  lemma RetirementChanges(s: State, g: nat)
    requires Enabled(s, Retired(g))
    ensures Apply(s, Retired(g)) == s.(owner := Nobody, teardown := Untried, clean := false)
  {
    hide Enabled;
  }

  lemma StartChanges(s: State, active: bool, at: real, budget: real)
    requires Enabled(s, AcquisitionStarted(active, at, budget))
    ensures Apply(s, AcquisitionStarted(active, at, budget)) ==
              s.(acquisition := Some(Acquisition(active, at, budget, at, 0.0, Between, 0, 0, 0,
                                                 if s.owner.Installed? then Unread else NoClient, Unsought,
                                                 false, false, false, s.interruptions)),
                 search := if s.attempt.reconciling then Begun else s.search)
  {
    hide Enabled;
  }

  lemma ConnectChanges(s: State, at: real, armed: real, window: real)
    requires Enabled(s, ConnectStarted(at, armed, window))
    ensures s.acquisition.Some?
    ensures Apply(s, ConnectStarted(at, armed, window)) ==
              var a := s.acquisition.value;
              var b := if a.scans == 1 then a.(freshConnects := a.freshConnects + 1)
                       else a.(cachedConnects := a.cachedConnects + 1);
              s.(acquisition := Some(b.(phase := Connecting(window), last := armed)))
  {
  }

  lemma OperationChanges(s: State)
    requires Enabled(s, OperationStarted)
    ensures Apply(s, OperationStarted) == s.(attempt := s.attempt.(started := true, running := true))
  {
    hide Enabled;
  }

  lemma ReadChanges(s: State, locked: Option<bool>)
    requires Enabled(s, StateRead(locked))
    ensures s.holder.Some?
    ensures Apply(s, StateRead(locked)) ==
              s.(work := s.work.(answer := Some(locked)),
                 attempt := s.attempt.(asked := true, confirmed :=
                   s.attempt.confirmed || (s.attempt.reconciling && Commanded(s.holder.value, locked))))
  {
  }

  lemma FailureChanges(s: State, error: Error)
    requires Enabled(s, QueryFailed(error))
    ensures Apply(s, QueryFailed(error)) ==
              s.(work := s.work.(failure := Some(error)),
                 attempt := s.attempt.(asked := true, confirmed := s.attempt.confirmed))
  {
    hide Enabled;
  }

  lemma CallChanges(s: State, ended: Exit<()>)
    requires Enabled(s, CallEnded(ended))
    ensures Apply(s, CallEnded(ended)) == s.(work := s.work.(call := Some(ended)))
  {
    hide Enabled;
  }

  lemma InterruptionChanges(s: State)
    requires Enabled(s, Interrupted)
    ensures Apply(s, Interrupted) ==
              s.(interruptions := s.interruptions + 1,
                 attempt := s.attempt.(withdrawn :=
                   s.attempt.withdrawn || (s.attempt.running && !s.attempt.written)))
  {
    hide Enabled;
  }

  lemma EndChanges(s: State, live: bool)
    requires Enabled(s, AcquisitionEnded(live))
    ensures s.acquisition.Some?
    ensures Apply(s, AcquisitionEnded(live)) ==
              s.(acquisition := Some(s.acquisition.value.(ended := true, live := live)),
                 search := if !s.attempt.reconciling then s.search else if live then Found else NotFound)
  {
  }

  lemma ConnectEndChanges(s: State, at: real, ended: Exit<()>, expired: bool, cancelled: bool, requested: bool)
    requires Enabled(s, ConnectEnded(at, ended, expired, cancelled, requested))
    ensures s.acquisition.Some? && s.acquisition.value.phase.Connecting?
    ensures Apply(s, ConnectEnded(at, ended, expired, cancelled, requested)) ==
              var a := CloseWindow(s.acquisition.value, at, s.acquisition.value.phase.window);
              s.(clean := ended.Return? && !expired && !cancelled,
                 requested := s.requested || CutOutside(ended, expired, cancelled, requested),
                 acquisition := Some(a.(stopped := a.stopped || SetupFailure(ended, expired))))
  {
  }

  // `states` are the states a history passes through, one more than events.
  ghost predicate Run(history: seq<Event>, states: seq<State>) {
    && |states| == |history| + 1
    && states[0] == INITIAL
    && forall k :: 0 <= k < |history| ==>
         Enabled(states[k], history[k]) && states[k + 1] == Apply(states[k], history[k])
  }

  // One more enabled event extends a run.
  lemma Extend(history: seq<Event>, states: seq<State>, e: Event)
    requires Run(history, states)
    requires Enabled(states[|history|], e)
    ensures Run(history + [e], states + [Apply(states[|history|], e)])
  {
    var h, ss := history + [e], states + [Apply(states[|history|], e)];
    forall k | 0 <= k < |h|
      ensures Enabled(ss[k], h[k]) && ss[k + 1] == Apply(ss[k], h[k])
    {
      if k < |history| {
        assert h[k] == history[k];
      }
    }
  }

  // The history is a run of the protocol that ends in `s`.
  ghost predicate Accepts(history: seq<Event>, s: State) {
    exists ss :: Run(history, ss) && ss[|history|] == s
  }

  lemma AcceptsInitial()
    ensures Accepts([], INITIAL)
  {
    assert Run([], [INITIAL]);
  }

  lemma AcceptsExtend(history: seq<Event>, s: State, e: Event)
    requires Accepts(history, s) && Enabled(s, e)
    ensures Accepts(history + [e], Apply(s, e))
  {
    var ss :| Run(history, ss) && ss[|history|] == s;
    Extend(history, ss, e);
    assert Run(history + [e], ss + [Apply(s, e)]);
  }
}
