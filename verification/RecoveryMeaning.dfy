/**
 What the recovery driver decides at each point, written out on the receipts; what every outcome rests on; and exactly
 which recoveries can still be completed.
 */
module RecoveryMeaning {
  import opened Common
  import opened RecoveryModel

  predicate Holds(ledger: Ledger, stage: Stage, status: Status) {
    stage in ledger && ledger[stage].status == status
  }

  /** A receipt proves the positive effect. */
  predicate Proven(ledger: Ledger) {
    Holds(ledger, PositiveObserved, Passed) || Holds(ledger, PositiveObserved, Recovered) || Holds(ledger, PositiveReconciled, Recovered)
  }

  // ---------------------------------------------------------------- single steps

  /** The claim follows a passed, unrevoked, unexpired view alone, and each other view has its own receipt. */
  lemma DecideExactly(w: World, view: View, a: Answer)
    requires w.point == Deciding(view)
    ensures var p := Step(w, a).point;
            && Step(w, a) == w.(point := p)
            && (p == AfterPositive(view) <==> Proven(w.ledger))
            && (p == Claiming(view, a.now) <==> !Proven(w.ledger) && view.passed && !view.revoked && a.now < view.expires)
            && (p == Ending(Complete, Receipt(Revoked, "QUALIFICATION_REVOKED")) <==> !Proven(w.ledger) && view.revoked)
            && (p == Ending(Complete, Receipt(Expired, "QUALIFICATION_EXPIRED")) <==>
                  !Proven(w.ledger) && !view.revoked && view.expires <= a.now)
            && (p == Ending(Complete, Receipt(Unknown, "QUALIFICATION_UNKNOWN")) <==>
                  !Proven(w.ledger) && !view.revoked && a.now < view.expires && !view.passed)
  {
  }

  /** With the positive effect proven, an expired and unrevoked view ends the recovery; otherwise the revocation is next. */
  lemma ContinueExactly(w: World, view: View, a: Answer)
    requires w.point == AfterPositive(view)
    ensures var p := Step(w, a).point;
            var expired := view.expires <= a.now && !view.revoked;
            var known := Holds(w.ledger, RevokedObserved, Observed) || Holds(w.ledger, RevokedObserved, Recovered);
            && Step(w, a) == w.(point := p)
            && (p == Ending(Complete, Receipt(Expired, "QUALIFICATION_EXPIRED")) <==> expired)
            && (p == LookingAgain(view) <==> !expired && RevokedObserved !in w.ledger)
            && (p == Challenging(view) <==> !expired && known)
            && (p == Idle <==> !expired && RevokedObserved in w.ledger && !known)
  {
  }

  /** An effect is claimed once, under the identity it was seen with, and called only by the resume that claimed it. */
  lemma ClaimExactly(w: World, view: View, at: real, a: Answer)
    requires w.point == Claiming(view, at)
    ensures var n := Step(w, a);
            && (n.point == CallingPositive(view, at) <==> PositiveClaimed !in w.ledger)
            && (PositiveClaimed in w.ledger ==> n.ledger == w.ledger)
            && (PositiveClaimed !in w.ledger ==> n.ledger == w.ledger[PositiveClaimed := Receipt(Claimed, view.identity)])
            && (n.point == Ending(PositiveObserved, Receipt(Unknown, "UNCLASSIFIED")) <==>
                  PositiveClaimed in w.ledger && w.ledger[PositiveClaimed] == Receipt(Claimed, view.identity))
            && (n.point == Idle <==> PositiveClaimed in w.ledger && w.ledger[PositiveClaimed] != Receipt(Claimed, view.identity))
  {
  }

  /** Where a receipt that was not there before, or was the same, leads; a different one ends the resume. */
  predicate Recorded(w: World, n: World, stage: Stage, receipt: Receipt, next: Point) {
    && n.effects == w.effects
    && (stage in w.ledger && w.ledger[stage] != receipt ==> n.ledger == w.ledger && n.point == Idle)
    && (stage !in w.ledger || w.ledger[stage] == receipt ==> n.ledger == w.ledger[stage := receipt] && n.point == next)
  }

  lemma PutExactly(w: World, stage: Stage, receipt: Receipt, next: Point)
    ensures Recorded(w, Put(w, stage, receipt, next), stage, receipt, next)
  {
    if stage in w.ledger && w.ledger[stage] == receipt { assert w.ledger[stage := receipt] == w.ledger; }
  }

  /** An effect of unknown fate is settled by the history alone: found, it is recorded; not found, nothing is inferred. */
  lemma HistoryExactly(w: World, view: View, a: Answer)
    requires w.point == AskingHistory(view)
    ensures var n := Step(w, a);
            var stage := if PositiveObserved in w.ledger then PositiveReconciled else PositiveObserved;
            && (a.failed.None? && a.matches ==> Recorded(w, n, stage, Receipt(Recovered, a.detail), Deciding(view)))
            && (a.failed.Some? ==> n == w.(point := Ending(PositiveObserved, Receipt(Unknown, a.failed.value))))
            && (a.failed.None? && !a.matches && Holds(w.ledger, PositiveObserved, Unknown) ==> n == w.(point := Idle))
            && (a.failed.None? && !a.matches && !Holds(w.ledger, PositiveObserved, Unknown) && PositiveClaimed in w.ledger ==>
                  n == w.(point := Ending(PositiveObserved, Receipt(Unknown, "UNCLASSIFIED"))))
            && (a.failed.None? && !a.matches && !Holds(w.ledger, PositiveObserved, Unknown) && PositiveClaimed !in w.ledger ==>
                  n == w.(point := Deciding(view)))
  {
    hide Put;
    if a.failed.None? && a.matches {
      PutExactly(w, if PositiveObserved in w.ledger then PositiveReconciled else PositiveObserved, Receipt(Recovered, a.detail), Deciding(view));
    }
  }

  /** The first steps of a resume: readiness, the original command and its record, and whether the history is asked. */
  lemma LooksExactly(w: World, a: Answer)
    ensures var n := Step(w, a);
            && (w.point.Checking? && a.failed.None? ==> Recorded(w, n, Preflight, Receipt(Passed, a.detail), Looking))
            && (w.point.Checking? && a.failed.Some? ==> Recorded(w, n, Preflight, Receipt(Failed, a.detail), Looking))
            && (w.point.Looking? && a.failed.None? ==> n == w.(point := Noting(StartObserved, Receipt(Observed, a.view.start), a.view)))
            && (w.point.Looking? && a.failed.Some? ==> n == w.(point := Ending(StartObserved, Receipt(Unknown, a.failed.value))))
            && (w.point.Weighing? && (PositiveObserved !in w.ledger || Holds(w.ledger, PositiveObserved, Unknown)) ==>
                  n == w.(point := AskingHistory(w.point.view)))
            && (w.point.Weighing? && PositiveObserved in w.ledger && !Holds(w.ledger, PositiveObserved, Unknown) ==>
                  n == w.(point := Deciding(w.point.view)))
  {
    hide Put, PositiveReady;
    if w.point.Checking? { PutExactly(w, Preflight, Receipt(if a.failed.Some? then Failed else Passed, a.detail), Looking); }
  }

  /** Where each receipt leads. */
  lemma NotesExactly(w: World, stage: Stage, receipt: Receipt, view: View, a: Answer)
    requires w.point == Noting(stage, receipt, view)
    ensures var n := Step(w, a);
            && (stage == StartObserved ==> Recorded(w, n, stage, receipt, Noting(QualificationObserved, Receipt(Observed, view.record), view)))
            && (stage == QualificationObserved ==> Recorded(w, n, stage, receipt, Weighing(view)))
            && (stage == PositiveObserved ==> Recorded(w, n, stage, receipt, AfterPositive(view)))
            && (stage == RevokedObserved ==> Recorded(w, n, stage, receipt, Challenging(view)))
            && (stage == NegativeObserved ==> Recorded(w, n, stage, receipt, Finishing))
  {
    hide Put, Recorded;
    PutExactly(w, stage, receipt, AfterNote(stage, view));
  }

  lemma EndsExactly(w: World, a: Answer)
    ensures w.point.Finishing? ==> Recorded(w, Step(w, a), Complete, Receipt(Completed, ""), Idle)
    ensures w.point.Ending? ==> Recorded(w, Step(w, a), w.point.stage, w.point.receipt, Idle)
  {
    hide Put, Recorded;
    if w.point.Finishing? { PutExactly(w, Complete, Receipt(Completed, ""), Idle); }
    if w.point.Ending? { PutExactly(w, w.point.stage, w.point.receipt, Idle); }
  }

  /** A revocation someone else made is recorded instead of made again; one of unknown fate is looked up. */
  lemma RevocationExactly(w: World, a: Answer)
    ensures var n := Step(w, a);
            && (w.point.LookingAgain? && a.failed.Some? ==> n == w.(point := Ending(RevokedObserved, Receipt(Unknown, a.failed.value))))
            && (w.point.LookingAgain? && a.failed.None? && a.revoked ==>
                  Recorded(w, n, RevokedObserved, Receipt(Recovered, a.detail), Challenging(w.point.view)))
            && (w.point.LookingAgain? && a.failed.None? && !a.revoked ==> n == w.(point := Revoking(w.point.view)))
            && (w.point.LookingAfterError? && a.failed.None? && a.revoked ==>
                  Recorded(w, n, RevokedObserved, Receipt(Recovered, a.detail), Challenging(w.point.view)))
            && (w.point.LookingAfterError? && (a.failed.Some? || !a.revoked) ==>
                  n == w.(point := Ending(RevokedObserved, Receipt(Unknown, w.point.code))))
  {
    hide Put, Recorded, PositiveReady;
    if w.point.LookingAgain? || w.point.LookingAfterError? {
      PutExactly(w, RevokedObserved, Receipt(Recovered, a.detail), Challenging(w.point.view));
    }
  }

  /** What is called outside, and what its answer is recorded as. */
  lemma CallsExactly(w: World, a: Answer)
    ensures var n := Step(w, a);
            var asks := w.point.Challenging? && NegativeObserved !in w.ledger;
            && (w.point.CallingPositive? ==> n.effects == w.effects + [PositiveCall])
            && (w.point.Revoking? ==> n.effects == w.effects + [RevokeCall])
            && (asks ==> n.effects == w.effects + [NegativeCall])
            && (!w.point.CallingPositive? && !w.point.Revoking? && !asks ==> n.effects == w.effects)
            && (w.point.CallingPositive? && a.failed.None? ==> n.point == Noting(PositiveObserved, Receipt(Passed, a.detail), w.point.view))
            && (w.point.CallingPositive? && a.failed.Some? ==> n.point == Ending(PositiveObserved, Receipt(Unknown, a.failed.value)))
            && (w.point.Revoking? && a.failed.None? ==> n.point == Noting(RevokedObserved, Receipt(Observed, a.detail), w.point.view))
            && (w.point.Revoking? && a.failed.Some? ==> n.point == LookingAfterError(w.point.view, a.failed.value))
            && (asks && a.failed.None? && a.matches ==> n.point == Noting(NegativeObserved, Receipt(Observed, a.detail), w.point.view))
            && (asks && a.failed.None? && !a.matches ==> n.point == Ending(NegativeObserved, Receipt(Unknown, "QUALIFICATION_REVOKED")))
            && (asks && a.failed.Some? ==> n.point == Ending(NegativeObserved, Receipt(Unknown, a.failed.value)))
            && (w.point.Challenging? && !asks ==> n.point == if Holds(w.ledger, NegativeObserved, Observed) then Finishing else Idle)
  {
    hide PositiveReady;
  }

  // ---------------------------------------------------------------- what outcomes rest on

  predicate Showed(e: Event, view: View) {
    e.Advance? && e.answer.failed.None? && e.answer.view == view
  }

  ghost predicate Seen(events: seq<Event>, view: View) {
    exists j :: 0 <= j < |events| && Showed(events[j], view)
  }

  predicate Told(e: Event, at: real) {
    e.Advance? && e.answer.now == at
  }

  /** The store showed this view, and the clock told this time afterwards. */
  ghost predicate Timed(events: seq<Event>, view: View, at: real) {
    exists j, k :: 0 <= j < k < |events| && Showed(events[j], view) && Told(events[k], at)
  }

  /** The view and the time that a final receipt other than completion stands for. */
  predicate Warrants(view: View, at: real, r: Receipt) {
    || (r == Receipt(Revoked, "QUALIFICATION_REVOKED") && view.revoked)
    || (r == Receipt(Expired, "QUALIFICATION_EXPIRED") && !view.revoked && view.expires <= at)
    || (r == Receipt(Unknown, "QUALIFICATION_UNKNOWN") && !view.revoked && at < view.expires && !view.passed)
  }

  ghost predicate Warranted(events: seq<Event>, r: Receipt) {
    exists view, at :: Timed(events, view, at) && Warrants(view, at, r)
  }

  ghost predicate CalledRightly(events: seq<Event>) {
    exists view, at :: Timed(events, view, at) && view.passed && !view.revoked && at < view.expires
  }

  ghost predicate Grounded(events: seq<Event>, point: Point) {
    match point
    case Idle => true
    case Checking => true
    case Looking => true
    case Finishing => true
    case Ending(stage, receipt) => stage == Complete ==> Warranted(events, receipt)
    case Claiming(view, at) => Timed(events, view, at)
    case CallingPositive(view, at) => Timed(events, view, at)
    case Noting(stage, _, view) => Seen(events, view) && stage != Complete
    case _ => Seen(events, point.view)
  }

  lemma SeenStays(events: seq<Event>, e: Event, view: View)
    requires Seen(events, view)
    ensures Seen(events + [e], view) && (e.Advance? ==> Timed(events + [e], view, e.answer.now))
  {
    var more := events + [e];
    var j :| 0 <= j < |events| && Showed(events[j], view);
    assert Showed(more[j], view);
    if e.Advance? { assert Told(more[|events|], e.answer.now); }
  }

  lemma TimedStays(events: seq<Event>, e: Event, view: View, at: real)
    requires Timed(events, view, at)
    ensures Timed(events + [e], view, at) && Seen(events, view)
  {
    var more := events + [e];
    var j, k :| 0 <= j < k < |events| && Showed(events[j], view) && Told(events[k], at);
    assert Showed(more[j], view) && Told(more[k], at);
  }

  lemma WarrantStays(events: seq<Event>, e: Event, r: Receipt)
    ensures Warranted(events, r) ==> Warranted(events + [e], r)
    ensures CalledRightly(events) ==> CalledRightly(events + [e])
  {
    hide Timed;
    if Warranted(events, r) {
      var view, at :| Timed(events, view, at) && Warrants(view, at, r);
      TimedStays(events, e, view, at);
    }
    if CalledRightly(events) {
      var view, at :| Timed(events, view, at) && view.passed && !view.revoked && at < view.expires;
      TimedStays(events, e, view, at);
    }
  }

  predicate Points(p: Point) {
    !p.Idle? && !p.Checking? && !p.Looking? && !p.Finishing? && !p.Ending?
  }

  /** Every point of a resume rests on what was seen before it. */
  lemma GroundedNext(events: seq<Event>, w: World, e: Event)
    requires Grounded(events, w.point)
    ensures Grounded(events + [e], Next(w, e).point)
  {
    hide Seen, Timed, PositiveReady, Warranted;
    var p := w.point;
    if p.Ending? { WarrantStays(events, e, p.receipt); }
    if p.Claiming? || p.CallingPositive? { TimedStays(events, e, p.view, p.at); }
    if Points(p) { SeenStays(events, e, p.view); }
    if p.Looking? && e.Advance? && e.answer.failed.None? { SeenNow(events, e); }
    if (p.Deciding? || p.AfterPositive?) && e.Advance? { WarrantedNow(events, w, e.answer); }
  }

  lemma SeenNow(events: seq<Event>, e: Event)
    requires e.Advance? && e.answer.failed.None?
    ensures Seen(events + [e], e.answer.view)
  {
    assert Showed((events + [e])[|events|], e.answer.view);
  }

  lemma WarrantedNow(events: seq<Event>, w: World, a: Answer)
    requires (w.point.Deciding? || w.point.AfterPositive?) && Seen(events, w.point.view)
    ensures var p := Step(w, a).point;
            p.Ending? ==> Warranted(events + [Advance(a)], p.receipt)
  {
    hide Seen, Timed;
    SeenStays(events, Advance(a), w.point.view);
    if w.point.Deciding? { DecideExactly(w, w.point.view, a); } else { ContinueExactly(w, w.point.view, a); }
    var p := Step(w, a).point;
    if p.Ending? { assert Warrants(w.point.view, a.now, p.receipt); }
  }

  /** What every run keeps, from a ledger without a final receipt. */
  ghost predicate Rests(start: World, events: seq<Event>, w: World) {
    && Grounded(events, w.point)
    && (Count(w.effects, PositiveCall) > Count(start.effects, PositiveCall) ==> CalledRightly(events))
    && (Complete in w.ledger && Complete !in start.ledger && w.ledger[Complete] != Receipt(Completed, "") ==>
          Warranted(events, w.ledger[Complete]))
  }

  lemma RestsNext(start: World, events: seq<Event>, w: World, e: Event)
    requires WorldOk(w) && Rests(start, events, w)
    ensures Rests(start, events + [e], Next(w, e))
  {
    hide Warranted, CalledRightly, Count;
    GroundedNext(events, w, e);
    var n := Next(w, e);
    if Complete in w.ledger { WarrantStays(events, e, w.ledger[Complete]); } else { WarrantStays(events, e, Receipt(Completed, "")); }
    if e.Advance? {
      FinalNext(w, e.answer);
      PositiveNext(events, w, e.answer);
      if w.point.Ending? { WarrantStays(events, e, w.point.receipt); }
    }
    hide Step, Grounded;
  }

  /** A final receipt is written by the last step alone. */
  lemma FinalNext(w: World, a: Answer)
    requires !w.point.Noting? || w.point.stage != Complete
    ensures Complete in w.ledger ==> Complete in Step(w, a).ledger && Step(w, a).ledger[Complete] == w.ledger[Complete]
    ensures Complete in Step(w, a).ledger && Complete !in w.ledger ==>
              w.point.Finishing? || (w.point.Ending? && w.point.stage == Complete)
    ensures Complete in Step(w, a).ledger && Complete !in w.ledger ==>
              Step(w, a).ledger[Complete] == if w.point.Finishing? then Receipt(Completed, "") else w.point.receipt
  {
    hide PositiveReady;
  }

  lemma PositiveNext(events: seq<Event>, w: World, a: Answer)
    requires WorldOk(w) && Grounded(events, w.point)
    ensures Count(Step(w, a).effects, PositiveCall) > Count(w.effects, PositiveCall) ==> CalledRightly(events)
  {
    hide Count, PositiveReady, Timed;
    CallsExactly(w, a);
    Counts(w.effects, RevokeCall);
    Counts(w.effects, NegativeCall);
    if w.point.CallingPositive? { assert CalledRightly(events); }
    hide Step;
  }

  lemma {:induction false} RunRests(start: World, events: seq<Event>)
    requires WorldOk(start) && start.point.Idle?
    ensures Rests(start, events, Run(start, events)) && WorldOk(Run(start, events))
  {
    hide Next, WorldOk;
    if events == [] {
      assert Run(start, events) == start;
      hide Run;
    } else {
      var before := events[..|events| - 1];
      RunRests(start, before);
      RunKeeps(start, before);
      RestsNext(start, before, Run(start, before), events[|events| - 1]);
      RunKeeps(start, events);
      assert before + [events[|events| - 1]] == events;
    }
  }

  /**
   Over any sequence of resumes with crashes anywhere: if the positive effect is called, the store had shown a passed and
   unrevoked qualification that a later look at the clock found unexpired; and a final receipt other than completion
   stands for a view that was revoked, expired when the clock was read, or not passed, as it says.
   */
  lemma OutcomesAreWarranted(ledger: Ledger, events: seq<Event>)
    requires Resumable(ledger) && Complete !in ledger
    ensures var w := Run(World(ledger, Idle, []), events);
            && (PositiveCall in w.effects ==> CalledRightly(events))
            && (Complete in w.ledger ==> w.ledger[Complete] == Receipt(Completed, "") || Warranted(events, w.ledger[Complete]))
  {
    hide Run, Warranted, CalledRightly, Grounded;
    var start := World(ledger, Idle, []);
    assert WorldOk(start);
    RunRests(start, events);
    Counted(Run(start, events).effects);
  }

  /**
   At the very step that calls the positive effect no receipt proves it yet, the claim on record is that of the view the
   driver goes by, and that view was passed, unrevoked and unexpired when it decided.
   */
  lemma PositiveFollowsClaim(ledger: Ledger, events: seq<Event>, e: Event)
    requires Resumable(ledger)
    ensures var w := Run(World(ledger, Idle, []), events);
            Next(w, e).effects == w.effects + [PositiveCall] ==>
              && w.point.CallingPositive? && !Proven(w.ledger) && PositiveClaimed in w.ledger
              && w.ledger[PositiveClaimed] == Receipt(Claimed, w.point.view.identity)
              && w.point.view.passed && !w.point.view.revoked && w.point.at < w.point.view.expires
  {
    hide Run;
    var start := World(ledger, Idle, []);
    assert WorldOk(start);
    RunKeeps(start, events);
    var w := Run(start, events);
    if Next(w, e).effects == w.effects + [PositiveCall] {
      assert Next(w, e).effects[|w.effects|] == PositiveCall;
      CallsExactly(w, e.answer);
    }
  }

  lemma {:induction false} Counted(effects: seq<Effect>)
    ensures PositiveCall in effects ==> Count(effects, PositiveCall) > 0
  {
    if effects != [] {
      Counted(effects[..|effects| - 1]);
      CountOneMore(effects[..|effects| - 1], effects[|effects| - 1], PositiveCall);
      assert effects == effects[..|effects| - 1] + [effects[|effects| - 1]];
    }
  }

  // ---------------------------------------------------------------- which recoveries can be completed

  predicate Done(ledger: Ledger) {
    Holds(ledger, Complete, Completed)
  }

  ghost predicate CanFinish(w: World) {
    exists events :: Done(Run(w, events).ledger)
  }

  /** No receipt stands in the way of completion. */
  predicate Open(ledger: Ledger) {
    && (Preflight in ledger ==> Holds(ledger, Preflight, Passed) || Holds(ledger, Preflight, Failed))
    && (StartObserved in ledger ==> Holds(ledger, StartObserved, Observed))
    && (QualificationObserved in ledger ==> Holds(ledger, QualificationObserved, Observed))
    && (Proven(ledger) || PositiveObserved !in ledger || (Holds(ledger, PositiveObserved, Unknown) && PositiveReconciled !in ledger))
    && (RevokedObserved in ledger ==> Holds(ledger, RevokedObserved, Observed) || Holds(ledger, RevokedObserved, Recovered))
    && (NegativeObserved in ledger ==> Holds(ledger, NegativeObserved, Observed))
  }

  lemma {:induction false} RunFirst(w: World, e: Event, events: seq<Event>)
    ensures Run(w, [e] + events) == Run(Next(w, e), events)
  {
    hide Next;
    var all := [e] + events;
    if events == [] {
      assert all[..|all| - 1] == [];
    } else {
      RunFirst(w, e, events[..|events| - 1]);
      assert all[..|all| - 1] == [e] + events[..|events| - 1];
    }
  }

  lemma Onward(w: World, e: Event)
    requires CanFinish(Next(w, e))
    ensures CanFinish(w)
  {
    hide Run, Next;
    var events :| Done(Run(Next(w, e), events).ledger);
    RunFirst(w, e, events);
    assert Done(Run(w, [e] + events).ledger);
  }

  /** An answer in which nothing failed. */
  function Fine(view: View, detail: Code, now: real): Answer {
    Answer(None, view, true, detail, false, now)
  }

  /** A receipt that is there already is written again as it is. */
  function Detail(ledger: Ledger, stage: Stage): Code {
    if stage in ledger then ledger[stage].detail else ""
  }

  lemma FromFinishing(w: World, a: Answer)
    requires w.point == Finishing && Complete !in w.ledger
    ensures CanFinish(w)
  {
    var n := Next(w, Advance(a));
    assert Run(n, []) == n;
    Onward(w, Advance(a));
  }

  lemma FromNegative(w: World, view: View)
    requires w.point.Noting? && w.point.stage == NegativeObserved && NegativeObserved !in w.ledger && Complete !in w.ledger
    ensures CanFinish(w)
  {
    var a := Fine(view, "", 0.0);
    NotesExactly(w, w.point.stage, w.point.receipt, w.point.view, a);
    hide Step, CanFinish;
    FromFinishing(Next(w, Advance(a)), a);
    Onward(w, Advance(a));
  }

  lemma FromChallenging(w: World)
    requires w.point.Challenging? && Complete !in w.ledger && Open(w.ledger)
    ensures CanFinish(w)
  {
    hide CanFinish;
    var a := Fine(w.point.view, "", 0.0);
    var n := Next(w, Advance(a));
    if NegativeObserved in w.ledger { FromFinishing(n, a); } else { FromNegative(n, w.point.view); }
    Onward(w, Advance(a));
  }

  lemma FromRevoking(w: World)
    requires w.point.Revoking? && Complete !in w.ledger && Open(w.ledger) && RevokedObserved !in w.ledger
    ensures CanFinish(w)
  {
    hide CanFinish;
    var a := Fine(w.point.view, "", 0.0);
    var n := Next(w, Advance(a));
    FromChallenging(Next(n, Advance(a)));
    Onward(n, Advance(a));
    Onward(w, Advance(a));
  }

  lemma FromAfterPositive(w: World)
    requires w.point.AfterPositive? && Complete !in w.ledger && Open(w.ledger) && w.point.view.expires > 0.0
    ensures CanFinish(w)
  {
    hide CanFinish;
    var a := Fine(w.point.view, "", 0.0);
    var n := Next(w, Advance(a));
    if RevokedObserved in w.ledger {
      FromChallenging(n);
    } else {
      FromRevoking(Next(n, Advance(a)));
      Onward(n, Advance(a));
    }
    Onward(w, Advance(a));
  }

  lemma FromDeciding(w: World)
    requires w.point.Deciding? && Complete !in w.ledger && Open(w.ledger) && w.point.view.expires > 0.0 && Proven(w.ledger)
    ensures CanFinish(w)
  {
    hide CanFinish;
    var a := Fine(w.point.view, "", 0.0);
    FromAfterPositive(Next(w, Advance(a)));
    Onward(w, Advance(a));
  }

  lemma FromHistory(w: World)
    requires w.point.AskingHistory? && Complete !in w.ledger && Open(w.ledger) && w.point.view.expires > 0.0
    requires PositiveObserved !in w.ledger || Holds(w.ledger, PositiveObserved, Unknown)
    ensures CanFinish(w)
  {
    var stage := if PositiveObserved in w.ledger then PositiveReconciled else PositiveObserved;
    var a := Fine(w.point.view, Detail(w.ledger, stage), 0.0);
    HistoryExactly(w, w.point.view, a);
    hide CanFinish, Step;
    FromDeciding(Next(w, Advance(a)));
    Onward(w, Advance(a));
  }

  lemma FromWeighing(w: World)
    requires w.point.Weighing? && Complete !in w.ledger && Open(w.ledger) && w.point.view.expires > 0.0
    ensures CanFinish(w)
  {
    hide CanFinish;
    var a := Fine(w.point.view, "", 0.0);
    var n := Next(w, Advance(a));
    if n.point.AskingHistory? { FromHistory(n); } else { FromDeciding(n); }
    Onward(w, Advance(a));
  }

  lemma FromRecord(w: World, view: View)
    requires Complete !in w.ledger && Open(w.ledger) && view.expires > 0.0 && view.record == Detail(w.ledger, QualificationObserved)
    requires w.point == Noting(QualificationObserved, Receipt(Observed, view.record), view)
    ensures CanFinish(w)
  {
    var a := Fine(view, "", 0.0);
    NotesExactly(w, QualificationObserved, Receipt(Observed, view.record), view, a);
    hide CanFinish, Step;
    FromWeighing(Next(w, Advance(a)));
    Onward(w, Advance(a));
  }

  lemma FromStart(w: World, view: View)
    requires Complete !in w.ledger && Open(w.ledger) && view.expires > 0.0 && view.record == Detail(w.ledger, QualificationObserved)
    requires view.start == Detail(w.ledger, StartObserved)
    requires w.point == Noting(StartObserved, Receipt(Observed, view.start), view)
    ensures CanFinish(w)
  {
    var a := Fine(view, "", 0.0);
    NotesExactly(w, StartObserved, Receipt(Observed, view.start), view, a);
    hide CanFinish, Step;
    FromRecord(Next(w, Advance(a)), view);
    Onward(w, Advance(a));
  }

  lemma FromLooking(w: World)
    requires w.point.Looking? && Complete !in w.ledger && Open(w.ledger)
    ensures CanFinish(w)
  {
    hide CanFinish;
    var view := View(Detail(w.ledger, StartObserved), Detail(w.ledger, QualificationObserved), "", true, 1.0, false);
    var a := Fine(view, "", 0.0);
    FromStart(Next(w, Advance(a)), view);
    Onward(w, Advance(a));
  }

  lemma FromChecking(w: World, a: Answer)
    requires w.point.Checking? && Complete !in w.ledger && Open(w.ledger)
    ensures CanFinish(w)
  {
    var b := a.(detail := Detail(w.ledger, Preflight), failed := if Holds(w.ledger, Preflight, Failed) then Some("") else None);
    LooksExactly(w, b);
    hide CanFinish, Step;
    FromLooking(Next(w, Advance(b)));
    Onward(w, Advance(b));
  }

  lemma CanComplete(ledger: Ledger)
    requires Complete !in ledger && Open(ledger)
    ensures CanFinish(World(ledger, Idle, []))
  {
    hide CanFinish;
    var w := World(ledger, Idle, []);
    FromChecking(Next(w, Resume), Fine(View("", "", "", true, 1.0, false), "", 0.0));
    Onward(w, Resume);
  }

  // ---------------------------------------------------------------- and which cannot

  predicate Checked(ledger: Ledger) {
    Holds(ledger, Preflight, Passed) || Holds(ledger, Preflight, Failed)
  }

  /** The first three receipts of a resume that got anywhere. */
  predicate Underway(ledger: Ledger) {
    Checked(ledger) && Holds(ledger, StartObserved, Observed) && Holds(ledger, QualificationObserved, Observed)
  }

  /** The receipts each point has behind it. */
  predicate Passage(ledger: Ledger, point: Point) {
    match point
    case Idle => true
    case Checking => true
    case Ending(stage, receipt) => receipt.status != Completed && stage != PositiveReconciled
    case Looking => Checked(ledger)
    case Noting(stage, receipt, _) =>
      && stage != Complete && stage != PositiveReconciled && Checked(ledger)
      && (stage == StartObserved || stage == QualificationObserved ==> receipt.status == Observed)
      && (stage != StartObserved ==> Holds(ledger, StartObserved, Observed))
      && (stage != StartObserved && stage != QualificationObserved ==> Underway(ledger))
    case AskingHistory(_) => Underway(ledger) && (PositiveObserved in ledger ==> Holds(ledger, PositiveObserved, Unknown))
    case _ => Underway(ledger)
  }

  predicate Travels(start: Ledger, w: World) {
    && Passage(w.ledger, w.point) && (Done(w.ledger) ==> Underway(w.ledger))
    && (PositiveReconciled in w.ledger && PositiveReconciled !in start ==> Holds(w.ledger, PositiveObserved, Unknown))
  }

  lemma UnderwayStays(a: Ledger, b: Ledger)
    requires Extends(a, b)
    ensures Underway(a) ==> Underway(b)
    ensures Checked(a) ==> Checked(b)
    ensures Holds(a, StartObserved, Observed) ==> Holds(b, StartObserved, Observed)
    ensures Holds(a, PositiveObserved, Unknown) ==> Holds(b, PositiveObserved, Unknown)
  {
  }

  lemma TravelsNext(start: Ledger, w: World, e: Event)
    requires WorldOk(w) && Travels(start, w)
    ensures Travels(start, Next(w, e))
  {
    if e.Advance? {
      StepKeeps(w, e.answer);
      UnderwayStays(w.ledger, Step(w, e.answer).ledger);
      FinalNext(w, e.answer);
      ReconciledNext(w, e.answer);
      PassageNext(start, w, e.answer);
    }
  }

  lemma ReconciledNext(w: World, a: Answer)
    requires Passage(w.ledger, w.point)
    ensures PositiveReconciled in Step(w, a).ledger && PositiveReconciled !in w.ledger ==> Holds(Step(w, a).ledger, PositiveObserved, Unknown)
  {
    hide PositiveReady, Underway;
  }

  lemma PassageNext(start: Ledger, w: World, a: Answer)
    requires WorldOk(w) && Travels(start, w) && Extends(w.ledger, Step(w, a).ledger)
    ensures Passage(Step(w, a).ledger, Step(w, a).point)
  {
    hide Step, WorldOk, Passage;
    if w.point.Noting? {
      PassageNote(w, a);
    } else if w.point.Checking? || w.point.Looking? || w.point.Weighing? || w.point.AskingHistory? {
      PassageEarly(w, a);
    } else {
      PassageLate(w, a);
    }
  }

  lemma PassageNote(w: World, a: Answer)
    requires w.point.Noting? && Passage(w.ledger, w.point) && Extends(w.ledger, Step(w, a).ledger)
    ensures Passage(Step(w, a).ledger, Step(w, a).point)
  {
    UnderwayStays(w.ledger, Step(w, a).ledger);
    hide Extends, PositiveReady;
  }

  lemma PassageEarly(w: World, a: Answer)
    requires w.point.Checking? || w.point.Looking? || w.point.Weighing? || w.point.AskingHistory?
    requires Passage(w.ledger, w.point) && Extends(w.ledger, Step(w, a).ledger)
    ensures Passage(Step(w, a).ledger, Step(w, a).point)
  {
    UnderwayStays(w.ledger, Step(w, a).ledger);
    hide Extends, PositiveReady;
  }

  lemma PassageLate(w: World, a: Answer)
    requires !w.point.Noting? && !w.point.Checking? && !w.point.Looking? && !w.point.Weighing? && !w.point.AskingHistory?
    requires Passage(w.ledger, w.point) && Extends(w.ledger, Step(w, a).ledger)
    ensures Passage(Step(w, a).ledger, Step(w, a).point)
  {
    UnderwayStays(w.ledger, Step(w, a).ledger);
    hide Extends, PositiveReady, Underway;
  }

  lemma {:induction false} RunTravels(start: World, events: seq<Event>)
    requires WorldOk(start) && start.point.Idle? && Complete !in start.ledger
    ensures Travels(start.ledger, Run(start, events)) && WorldOk(Run(start, events))
  {
    hide Next, WorldOk;
    if events != [] {
      RunTravels(start, events[..|events| - 1]);
      RunKeeps(start, events);
      hide Travels;
      TravelsNext(start.ledger, Run(start, events[..|events| - 1]), events[|events| - 1]);
    }
  }

  /**
   A recovery without a final receipt can be completed by some resumes if and only if no receipt on record stands in the
   way: whatever crashes left behind, a positive effect of unknown fate included, as long as its history can be found.
   */
  lemma CompletableExactly(ledger: Ledger)
    requires Complete !in ledger
    ensures (exists events :: Done(Run(World(ledger, Idle, []), events).ledger)) <==> Open(ledger)
  {
    var start := World(ledger, Idle, []);
    if Open(ledger) { CanComplete(ledger); }
    if CanFinish(start) {
      var events :| Done(Run(start, events).ledger);
      assert WorldOk(start);
      RunTravels(start, events);
      RunKeeps(start, events);
      StoodOpen(ledger, Run(start, events));
    }
  }

  lemma StoodOpen(ledger: Ledger, w: World)
    requires WorldOk(w) && Travels(ledger, w) && Done(w.ledger) && Extends(ledger, w.ledger)
    ensures Open(ledger)
  {
    hide Count, PointOk, Passage;
  }
}
