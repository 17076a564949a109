/**
 The qualification recovery driver: resumable stages with write-once receipts.

 A resume runs under a lock, so at most one is under way; it may die between any two of its steps, each of which reads
 the outside world, calls it, or commits one receipt.  What the outside answers is up to the environment.
 */
module RecoveryModel {
  import opened Common

  type Code = string

  datatype Stage =
    | Preflight | StartObserved | QualificationObserved | PositiveClaimed | PositiveObserved | PositiveReconciled
    | RevokedObserved | NegativeObserved | Complete

  datatype Status = Passed | Failed | Unknown | Observed | Recovered | Claimed | Revoked | Expired | Completed

  /** A status with whatever digest or reason goes with it. */
  datatype Receipt = Receipt(status: Status, detail: Code)

  type Ledger = map<Stage, Receipt>

  datatype Written = Conflict | Stored(ledger: Ledger, added: bool)

  /** A stage is written once; writing it again is a replay or a conflict. */
  function Write(ledger: Ledger, stage: Stage, receipt: Receipt): Written {
    if stage in ledger then if ledger[stage] == receipt then Stored(ledger, false) else Conflict
    else Stored(ledger[stage := receipt], true)
  }

  function Read(ledger: Ledger, stage: Stage): Option<Receipt> {
    if stage in ledger then Some(ledger[stage]) else None
  }

  // ---------------------------------------------------------------- one resume

  /** What the store shows of the original command and its record. */
  datatype View = View(start: Code, record: Code, identity: Code, passed: bool, expires: real, revoked: bool)

  datatype Point =
    | Idle
    | Checking
    | Looking
    | Noting(stage: Stage, receipt: Receipt, view: View)
    | Weighing(view: View)
    | AskingHistory(view: View)
    | Deciding(view: View)
    | Claiming(view: View, at: real)
    | CallingPositive(view: View, at: real)
    | AfterPositive(view: View)
    | LookingAgain(view: View)
    | Revoking(view: View)
    | LookingAfterError(view: View, code: Code)
    | Challenging(view: View)
    | Finishing
    | Ending(stage: Stage, receipt: Receipt)

  datatype Effect = PositiveCall | RevokeCall | NegativeCall

  datatype World = World(ledger: Ledger, point: Point, effects: seq<Effect>)

  /** Everything the environment decides in one step. */
  datatype Answer = Answer(failed: Option<Code>, view: View, matches: bool, detail: Code, revoked: bool, now: real)

  datatype Event = Resume | Advance(answer: Answer) | Crash

  function At(w: World, point: Point): World {
    w.(point := point)
  }

  function Call(w: World, effect: Effect): World {
    w.(effects := w.effects + [effect])
  }

  /** Commits a receipt and goes on; a conflict ends the resume with an error. */
  function Put(w: World, stage: Stage, receipt: Receipt, next: Point): World {
    var r := Write(w.ledger, stage, receipt);
    if r.Conflict? then At(w, Idle) else World(r.ledger, next, w.effects)
  }

  function UnknownFor(code: Code): Receipt {
    Receipt(Unknown, code)
  }

  predicate IsUnknown(r: Option<Receipt>) {
    r.Some? && r.value.status == Unknown
  }

  /** The ledger proves the positive effect. */
  predicate PositiveReady(ledger: Ledger) {
    || (PositiveObserved in ledger && (ledger[PositiveObserved].status == Passed || ledger[PositiveObserved].status == Recovered))
    || (PositiveReconciled in ledger && ledger[PositiveReconciled].status == Recovered)
  }

  /** The lookup of an earlier positive effect, and what may follow it. */
  function History(w: World, view: View, a: Answer): World {
    var positive := Read(w.ledger, PositiveObserved);
    if a.failed.None? && a.matches then
      Put(w, if positive.None? then PositiveObserved else PositiveReconciled, Receipt(Recovered, a.detail), Deciding(view))
    else if a.failed.Some? then At(w, Ending(PositiveObserved, UnknownFor(a.failed.value)))
    else if IsUnknown(positive) then At(w, Idle)
    else if PositiveClaimed in w.ledger then At(w, Ending(PositiveObserved, UnknownFor("UNCLASSIFIED")))
    else At(w, Deciding(view))
  }

  function Decide(w: World, view: View, a: Answer): World {
    if PositiveReady(w.ledger) then At(w, AfterPositive(view))
    else if view.revoked then At(w, Ending(Complete, Receipt(Revoked, "QUALIFICATION_REVOKED")))
    else if view.expires <= a.now then At(w, Ending(Complete, Receipt(Expired, "QUALIFICATION_EXPIRED")))
    else if !view.passed then At(w, Ending(Complete, UnknownFor("QUALIFICATION_UNKNOWN")))
    else At(w, Claiming(view, a.now))
  }

  function ClaimPositive(w: World, view: View, at: real): World {
    var r := Write(w.ledger, PositiveClaimed, Receipt(Claimed, view.identity));
    if r.Conflict? then At(w, Idle)
    else if !r.added then At(w, Ending(PositiveObserved, UnknownFor("UNCLASSIFIED")))
    else World(r.ledger, CallingPositive(view, at), w.effects)
  }

  function CallPositive(w: World, view: View, a: Answer): World {
    var called := Call(w, PositiveCall);
    if a.failed.Some? then At(called, Ending(PositiveObserved, UnknownFor(a.failed.value)))
    else At(called, Noting(PositiveObserved, Receipt(Passed, a.detail), view))
  }

  function ContinueAfterPositive(w: World, view: View, a: Answer): World {
    var revoked := Read(w.ledger, RevokedObserved);
    if view.expires <= a.now && !view.revoked then At(w, Ending(Complete, Receipt(Expired, "QUALIFICATION_EXPIRED")))
    else if revoked.None? then At(w, LookingAgain(view))
    else if revoked.value.status != Observed && revoked.value.status != Recovered then At(w, Idle)
    else At(w, Challenging(view))
  }

  function LookAgain(w: World, view: View, a: Answer): World {
    if a.failed.Some? then At(w, Ending(RevokedObserved, UnknownFor(a.failed.value)))
    else if a.revoked then Put(w, RevokedObserved, Receipt(Recovered, a.detail), Challenging(view))
    else At(w, Revoking(view))
  }

  function CallRevoke(w: World, view: View, a: Answer): World {
    var called := Call(w, RevokeCall);
    if a.failed.Some? then At(called, LookingAfterError(view, a.failed.value))
    else At(called, Noting(RevokedObserved, Receipt(Observed, a.detail), view))
  }

  function LookAfterError(w: World, view: View, code: Code, a: Answer): World {
    if a.failed.None? && a.revoked then Put(w, RevokedObserved, Receipt(Recovered, a.detail), Challenging(view))
    else At(w, Ending(RevokedObserved, UnknownFor(code)))
  }

  function Challenge(w: World, view: View, a: Answer): World {
    var negative := Read(w.ledger, NegativeObserved);
    if negative.Some? then if negative.value.status != Observed then At(w, Idle) else At(w, Finishing)
    else
      var called := Call(w, NegativeCall);
      if a.failed.Some? then At(called, Ending(NegativeObserved, UnknownFor(a.failed.value)))
      else if !a.matches then At(called, Ending(NegativeObserved, UnknownFor("QUALIFICATION_REVOKED")))
      else At(called, Noting(NegativeObserved, Receipt(Observed, a.detail), view))
  }

  /** Where a committed receipt leads. */
  function AfterNote(stage: Stage, view: View): Point {
    match stage
    case StartObserved => Noting(QualificationObserved, Receipt(Observed, view.record), view)
    case QualificationObserved => Weighing(view)
    case PositiveObserved => AfterPositive(view)
    case RevokedObserved => Challenging(view)
    case NegativeObserved => Finishing
    case _ => Idle
  }

  function Step(w: World, a: Answer): World {
    match w.point
    case Idle => w
    case Checking => Put(w, Preflight, Receipt(if a.failed.Some? then Failed else Passed, a.detail), Looking)
    case Looking =>
      if a.failed.Some? then At(w, Ending(StartObserved, UnknownFor(a.failed.value)))
      else At(w, Noting(StartObserved, Receipt(Observed, a.view.start), a.view))
    case Noting(stage, receipt, view) => Put(w, stage, receipt, AfterNote(stage, view))
    case Weighing(view) =>
      var positive := Read(w.ledger, PositiveObserved);
      At(w, if positive.None? || IsUnknown(positive) then AskingHistory(view) else Deciding(view))
    case AskingHistory(view) => History(w, view, a)
    case Deciding(view) => Decide(w, view, a)
    case Claiming(view, at) => ClaimPositive(w, view, at)
    case CallingPositive(view, _) => CallPositive(w, view, a)
    case AfterPositive(view) => ContinueAfterPositive(w, view, a)
    case LookingAgain(view) => LookAgain(w, view, a)
    case Revoking(view) => CallRevoke(w, view, a)
    case LookingAfterError(view, code) => LookAfterError(w, view, code, a)
    case Challenging(view) => Challenge(w, view, a)
    case Finishing => Put(w, Complete, Receipt(Completed, ""), Idle)
    case Ending(stage, receipt) => Put(w, stage, receipt, Idle)
  }

  function Next(w: World, e: Event): World {
    match e
    case Resume => if w.point.Idle? then At(w, Checking) else w
    case Advance(a) => Step(w, a)
    case Crash => At(w, Idle)
  }

  function Run(w: World, events: seq<Event>): World {
    if events == [] then w else Next(Run(w, events[..|events| - 1]), events[|events| - 1])
  }

  // ---------------------------------------------------------------- the invariant

  /** The positive effect was called, or is about to be, only under its own claim. */
  predicate ClaimCovers(w: World) {
    Count(w.effects, PositiveCall) + (if w.point.CallingPositive? then 1 else 0) <= if PositiveClaimed in w.ledger then 1 else 0
  }

  /** A view under which the positive effect may be called. */
  predicate Qualified(view: View, at: real) {
    view.passed && !view.revoked && at < view.expires
  }

  predicate RevocationReady(ledger: Ledger) {
    RevokedObserved in ledger && (ledger[RevokedObserved].status == Observed || ledger[RevokedObserved].status == Recovered)
  }

  predicate NegativeReady(ledger: Ledger) {
    NegativeObserved in ledger && ledger[NegativeObserved].status == Observed
  }

  /** What the driver has established at each point. */
  predicate PointOk(ledger: Ledger, effects: seq<Effect>, point: Point) {
    match point
    case Claiming(view, at) => Qualified(view, at) && !PositiveReady(ledger)
    case CallingPositive(view, at) =>
      Qualified(view, at) && !PositiveReady(ledger) && PositiveClaimed in ledger && ledger[PositiveClaimed] == Receipt(Claimed, view.identity)
    case AfterPositive(_) => PositiveReady(ledger)
    case LookingAgain(_) => PositiveReady(ledger)
    case Revoking(_) => PositiveReady(ledger)
    case LookingAfterError(_, _) => PositiveReady(ledger)
    case Challenging(_) => PositiveReady(ledger) && RevocationReady(ledger)
    case Finishing => PositiveReady(ledger) && RevocationReady(ledger) && NegativeReady(ledger)
    case Noting(stage, receipt, _) =>
      && (stage == StartObserved || stage == QualificationObserved || stage == PositiveObserved || stage == RevokedObserved ||
          stage == NegativeObserved)
      && (stage == PositiveObserved ==> receipt.status == Passed)
      && (stage == RevokedObserved ==> PositiveReady(ledger) && receipt.status == Observed)
      && (stage == NegativeObserved ==> PositiveReady(ledger) && RevocationReady(ledger) && receipt.status == Observed)
    case Ending(_, receipt) => receipt.status != Completed
    case _ => true
  }

  predicate CompleteOk(ledger: Ledger) {
    Complete in ledger && ledger[Complete].status == Completed ==>
      PositiveReady(ledger) && RevocationReady(ledger) && NegativeReady(ledger)
  }

  predicate EffectsOk(ledger: Ledger, effects: seq<Effect>) {
    && (Count(effects, RevokeCall) > 0 ==> PositiveReady(ledger))
    && (Count(effects, NegativeCall) > 0 ==> PositiveReady(ledger) && RevocationReady(ledger))
  }

  predicate WorldOk(w: World) {
    ClaimCovers(w) && PointOk(w.ledger, w.effects, w.point) && CompleteOk(w.ledger) && EffectsOk(w.ledger, w.effects)
  }

  /** Receipts are only added. */
  predicate Extends(a: Ledger, b: Ledger) {
    forall s :: s in a ==> s in b && b[s] == a[s]
  }

  lemma ReadyStays(a: Ledger, b: Ledger)
    requires Extends(a, b)
    ensures PositiveReady(a) ==> PositiveReady(b)
    ensures RevocationReady(a) ==> RevocationReady(b)
    ensures NegativeReady(a) ==> NegativeReady(b)
  {
  }

  /** Committing a receipt keeps what is known, if the next point holds with it. */
  lemma PutKeeps(w: World, stage: Stage, receipt: Receipt, next: Point)
    requires WorldOk(w) && !w.point.CallingPositive? && !next.CallingPositive?
    requires stage != Complete || receipt.status != Completed || (PositiveReady(w.ledger) && RevocationReady(w.ledger) && NegativeReady(w.ledger))
    requires forall l :: Extends(w.ledger, l) && stage in l && l[stage] == receipt ==> PointOk(l, w.effects, next)
    ensures WorldOk(Put(w, stage, receipt, next)) && Extends(w.ledger, Put(w, stage, receipt, next).ledger)
  {
    hide Count;
    var r := Write(w.ledger, stage, receipt);
    if r.Stored? {
      ReadyStays(w.ledger, r.ledger);
      assert Extends(w.ledger, r.ledger) && stage in r.ledger && r.ledger[stage] == receipt;
    }
  }

  lemma ExtendsSelf(l: Ledger)
    ensures Extends(l, l)
  {
  }

  lemma NoteKeeps(w: World, stage: Stage, receipt: Receipt, view: View)
    requires WorldOk(w) && w.point == Noting(stage, receipt, view)
    ensures WorldOk(Put(w, stage, receipt, AfterNote(stage, view)))
    ensures Extends(w.ledger, Put(w, stage, receipt, AfterNote(stage, view)).ledger)
  {
    hide Count;
    forall l | Extends(w.ledger, l) && stage in l && l[stage] == receipt ensures PointOk(l, w.effects, AfterNote(stage, view)) {
      ReadyStays(w.ledger, l);
    }
    PutKeeps(w, stage, receipt, AfterNote(stage, view));
  }

  lemma HistoryKeeps(w: World, view: View, a: Answer)
    requires WorldOk(w) && w.point == AskingHistory(view)
    ensures WorldOk(History(w, view, a)) && Extends(w.ledger, History(w, view, a).ledger)
  {
    hide Count;
    ExtendsSelf(w.ledger);
    if a.failed.None? && a.matches {
      var stage := if Read(w.ledger, PositiveObserved).None? then PositiveObserved else PositiveReconciled;
      PutKeeps(w, stage, Receipt(Recovered, a.detail), Deciding(view));
    }
  }

  lemma ClaimKeeps(w: World, view: View, at: real)
    requires WorldOk(w) && w.point == Claiming(view, at)
    ensures WorldOk(ClaimPositive(w, view, at)) && Extends(w.ledger, ClaimPositive(w, view, at).ledger)
  {
    hide Count;
    var r := Write(w.ledger, PositiveClaimed, Receipt(Claimed, view.identity));
    if r.Stored? { ReadyStays(w.ledger, r.ledger); }
  }

  lemma Counts(effects: seq<Effect>, e: Effect)
    ensures Count(effects + [e], PositiveCall) == Count(effects, PositiveCall) + if e == PositiveCall then 1 else 0
    ensures Count(effects + [e], RevokeCall) == Count(effects, RevokeCall) + if e == RevokeCall then 1 else 0
    ensures Count(effects + [e], NegativeCall) == Count(effects, NegativeCall) + if e == NegativeCall then 1 else 0
  {
    hide Count;
    CountOneMore(effects, e, PositiveCall);
    CountOneMore(effects, e, RevokeCall);
    CountOneMore(effects, e, NegativeCall);
  }

  lemma PositiveKeeps(w: World, view: View, a: Answer)
    requires WorldOk(w) && w.point.CallingPositive? && w.point.view == view
    ensures WorldOk(CallPositive(w, view, a)) && Extends(w.ledger, CallPositive(w, view, a).ledger)
  {
    Counts(w.effects, PositiveCall);
    hide Count, PositiveReady, RevocationReady, NegativeReady;
    ExtendsSelf(w.ledger);
  }

  lemma RevokeKeeps(w: World, view: View, a: Answer)
    requires WorldOk(w) && w.point == Revoking(view)
    ensures WorldOk(CallRevoke(w, view, a)) && Extends(w.ledger, CallRevoke(w, view, a).ledger)
  {
    Counts(w.effects, RevokeCall);
    hide Count, PositiveReady, RevocationReady, NegativeReady;
    ExtendsSelf(w.ledger);
  }

  lemma ChallengeKeeps(w: World, view: View, a: Answer)
    requires WorldOk(w) && w.point == Challenging(view)
    ensures WorldOk(Challenge(w, view, a)) && Extends(w.ledger, Challenge(w, view, a).ledger)
  {
    Counts(w.effects, NegativeCall);
    hide Count, PositiveReady, RevocationReady;
    ExtendsSelf(w.ledger);
  }

  lemma LookKeeps(w: World, a: Answer)
    requires WorldOk(w) && (w.point.LookingAgain? || w.point.LookingAfterError?)
    ensures WorldOk(Step(w, a)) && Extends(w.ledger, Step(w, a).ledger)
  {
    hide Count;
    ExtendsSelf(w.ledger);
    if a.failed.None? && a.revoked {
      var view := w.point.view;
      forall l | Extends(w.ledger, l) && RevokedObserved in l && l[RevokedObserved] == Receipt(Recovered, a.detail)
        ensures PointOk(l, w.effects, Challenging(view))
      {
        ReadyStays(w.ledger, l);
      }
      PutKeeps(w, RevokedObserved, Receipt(Recovered, a.detail), Challenging(view));
    }
  }

  lemma StepKeeps(w: World, a: Answer)
    requires WorldOk(w)
    ensures WorldOk(Step(w, a)) && Extends(w.ledger, Step(w, a).ledger)
  {
    ExtendsSelf(w.ledger);
    hide Count, Put, History, ClaimPositive, CallPositive, CallRevoke, Challenge, LookAgain, LookAfterError;
    match w.point {
      case Checking => PutKeeps(w, Preflight, Receipt(if a.failed.Some? then Failed else Passed, a.detail), Looking);
      case Noting(stage, receipt, view) => NoteKeeps(w, stage, receipt, view);
      case AskingHistory(view) => HistoryKeeps(w, view, a);
      case Claiming(view, at) => ClaimKeeps(w, view, at);
      case CallingPositive(view, _) => PositiveKeeps(w, view, a);
      case Revoking(view) => RevokeKeeps(w, view, a);
      case Challenging(view) => ChallengeKeeps(w, view, a);
      case LookingAgain(_) => LookKeeps(w, a);
      case LookingAfterError(_, _) => LookKeeps(w, a);
      case Finishing => PutKeeps(w, Complete, Receipt(Completed, ""), Idle);
      case Ending(stage, receipt) => PutKeeps(w, stage, receipt, Idle);
      case _ =>
    }
  }

  lemma {:induction false} RunKeeps(w: World, events: seq<Event>)
    requires WorldOk(w)
    ensures WorldOk(Run(w, events)) && Extends(w.ledger, Run(w, events).ledger)
  {
    hide Step, Count;
    if events == [] {
      ExtendsSelf(w.ledger);
    } else {
      var before := Run(w, events[..|events| - 1]);
      RunKeeps(w, events[..|events| - 1]);
      var e := events[|events| - 1];
      if e.Advance? { StepKeeps(before, e.answer); }
    }
  }

  /** A ledger left by earlier resumes, or imported from an earlier form; nothing under way. */
  predicate Resumable(ledger: Ledger) {
    CompleteOk(ledger)
  }

  /**
   Over any sequence of resumes with crashes anywhere: the positive effect is called at most once, and never when a claim
   was on record before; revoking and challenging happen only with the positive receipt on record; completion is recorded
   only with the positive, revocation and negative receipts on record; and no receipt ever changes.
   */
  lemma RecoveryIsSafe(ledger: Ledger, events: seq<Event>)
    requires Resumable(ledger)
    ensures var w := Run(World(ledger, Idle, []), events);
            && Count(w.effects, PositiveCall) <= 1
            && (Count(w.effects, PositiveCall) == 1 ==> PositiveClaimed in w.ledger && PositiveClaimed !in ledger)
            && (Count(w.effects, RevokeCall) > 0 ==> PositiveReady(w.ledger))
            && (Count(w.effects, NegativeCall) > 0 ==> PositiveReady(w.ledger) && RevocationReady(w.ledger))
            && (Complete in w.ledger && w.ledger[Complete].status == Completed ==>
                  PositiveReady(w.ledger) && RevocationReady(w.ledger) && NegativeReady(w.ledger))
            && (forall s :: s in ledger ==> s in w.ledger && w.ledger[s] == ledger[s])
  {
    hide Run;
    var start := World(ledger, Idle, []);
    assert WorldOk(start);
    RunKeeps(start, events);
    if PositiveClaimed in ledger { NeverCalled(start, events); }
  }

  lemma {:induction false} NeverCalled(w: World, events: seq<Event>)
    requires PositiveClaimed in w.ledger && w.effects == [] && w.point.Idle? && WorldOk(w)
    ensures var r := Run(w, events);
            PositiveClaimed in r.ledger && Count(r.effects, PositiveCall) == 0 && !r.point.CallingPositive?
  {
    if events != [] {
      NeverCalled(w, events[..|events| - 1]);
      RunKeeps(w, events[..|events| - 1]);
      var before := Run(w, events[..|events| - 1]);
      var e := events[|events| - 1];
      if e.Advance? {
        StepKeeps(before, e.answer);
        StepCallsNothing(before, e.answer);
      }
      hide Step;
    }
  }

  lemma StepCallsNothing(w: World, a: Answer)
    requires PositiveClaimed in w.ledger && !w.point.CallingPositive?
    ensures Count(Step(w, a).effects, PositiveCall) == Count(w.effects, PositiveCall) && !Step(w, a).point.CallingPositive?
  {
    hide Count, PositiveReady;
    Counts(w.effects, RevokeCall);
    Counts(w.effects, NegativeCall);
  }

  /** At the very step that revokes, the positive receipt is already on record. */
  lemma RevokeFollowsPositive(ledger: Ledger, events: seq<Event>, e: Event)
    requires Resumable(ledger)
    ensures var w := Run(World(ledger, Idle, []), events);
            Next(w, e).effects == w.effects + [RevokeCall] ==> PositiveReady(w.ledger)
  {
    hide Run;
    var start := World(ledger, Idle, []);
    assert WorldOk(start);
    RunKeeps(start, events);
    var w := Run(start, events);
    if Next(w, e).effects == w.effects + [RevokeCall] {
      assert Next(w, e).effects[|w.effects|] == RevokeCall;
    }
  }
}
