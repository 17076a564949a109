/**
 The recovery driver object: its receipts are a field that grows, and a resume performs the steps in place.
 */
module RecoveryDriver {
  import opened Common
  import opened RecoveryModel
  import opened RecoveryMeaning

  /** One resume: it is entered, lives as long as the answers last, and is over or dies. */
  function ResumeEvents(answers: seq<Answer>): seq<Event> {
    [Resume] + Advances(answers) + [Crash]
  }

  function Advances(answers: seq<Answer>): seq<Event> {
    seq(|answers|, i requires 0 <= i < |answers| => Advance(answers[i]))
  }

  class Driver {
    var stages: Ledger
    var point: Point
    var effects: seq<Effect>

    function State(): World
      reads this
    {
      World(stages, point, effects)
    }

    ghost predicate Valid()
      reads this
    {
      WorldOk(State())
    }

    constructor (ledger: Ledger)
      requires Resumable(ledger)
      ensures Valid() && State() == World(ledger, Idle, [])
    {
      stages, point, effects := ledger, Idle, [];
    }

    /** Commits a receipt unless another one is stored for the stage; the claim is new only if this call added it. */
    method Claim(stage: Stage, receipt: Receipt) returns (r: Option<bool>)
      modifies this`stages
      ensures r.None? <==> stage in old(stages) && old(stages)[stage] != receipt
      ensures r == Some(true) <==> stage !in old(stages)
      ensures r.Some? ==> stages == old(stages)[stage := receipt]
      ensures r.None? ==> stages == old(stages)
      ensures Extends(old(stages), stages)
    {
      if stage in stages {
        if stages[stage] != receipt { return None; }
        assert stages == stages[stage := receipt];
        return Some(false);
      }
      stages := stages[stage := receipt];
      return Some(true);
    }

    /** Commits a receipt and goes on, or ends on a conflict. */
    method Note(stage: Stage, receipt: Receipt, next: Point)
      modifies this`stages, this`point
      ensures State() == Put(old(State()), stage, receipt, next)
    {
      var r := Claim(stage, receipt);
      point := if r.None? then Idle else next;
      assert stage in old(stages) && old(stages)[stage] == receipt ==> old(stages)[stage := receipt] == old(stages);
    }

    method AskHistory(view: View, a: Answer)
      requires point == AskingHistory(view)
      modifies this`stages, this`point
      ensures State() == History(old(State()), view, a)
    {
      var positive := Read(stages, PositiveObserved);
      if a.failed.None? && a.matches {
        Note(if positive.None? then PositiveObserved else PositiveReconciled, Receipt(Recovered, a.detail), Deciding(view));
      } else if a.failed.Some? {
        point := Ending(PositiveObserved, UnknownFor(a.failed.value));
      } else if IsUnknown(positive) {
        point := Idle;
      } else if PositiveClaimed in stages {
        point := Ending(PositiveObserved, UnknownFor("UNCLASSIFIED"));
      } else {
        point := Deciding(view);
      }
    }

    method ClaimEffect(view: View)
      requires point.Claiming? && point.view == view
      modifies this`stages, this`point
      ensures State() == ClaimPositive(old(State()), view, old(point).at)
    {
      var r := Claim(PositiveClaimed, Receipt(Claimed, view.identity));
      if r.None? {
        point := Idle;
      } else if r.value {
        point := CallingPositive(view, point.at);
      } else {
        assert old(stages)[PositiveClaimed := Receipt(Claimed, view.identity)] == old(stages);
        point := Ending(PositiveObserved, UnknownFor("UNCLASSIFIED"));
      }
    }

    /** The calls outside, each followed by where its answer leads. */
    method CallOutside(a: Answer)
      requires point.CallingPositive? || point.Revoking? || (point.Challenging? && NegativeObserved !in stages)
      modifies this`point, this`effects
      ensures State() == Step(old(State()), a)
    {
      var view := point.view;
      match point {
        case CallingPositive(_, _) =>
          effects := effects + [PositiveCall];
          point := if a.failed.Some? then Ending(PositiveObserved, UnknownFor(a.failed.value))
                   else Noting(PositiveObserved, Receipt(Passed, a.detail), view);
        case Revoking(_) =>
          effects := effects + [RevokeCall];
          point := if a.failed.Some? then LookingAfterError(view, a.failed.value)
                   else Noting(RevokedObserved, Receipt(Observed, a.detail), view);
        case Challenging(_) =>
          effects := effects + [NegativeCall];
          point := if a.failed.Some? then Ending(NegativeObserved, UnknownFor(a.failed.value))
                   else if !a.matches then Ending(NegativeObserved, UnknownFor("QUALIFICATION_REVOKED"))
                   else Noting(NegativeObserved, Receipt(Observed, a.detail), view);
      }
    }

    /** One step in place. */
    method Proceed(a: Answer)
      requires Valid()
      modifies this
      ensures State() == Step(old(State()), a)
      ensures Valid() && Extends(old(stages), stages)
    {
      StepKeeps(State(), a);
      hide WorldOk, Extends, PositiveReady;
      match point {
        case Idle =>
        case Checking => Note(Preflight, Receipt(if a.failed.Some? then Failed else Passed, a.detail), Looking);
        case Looking =>
          point := if a.failed.Some? then Ending(StartObserved, UnknownFor(a.failed.value))
                   else Noting(StartObserved, Receipt(Observed, a.view.start), a.view);
        case Noting(stage, receipt, view) => Note(stage, receipt, AfterNote(stage, view));
        case Weighing(view) =>
          var positive := Read(stages, PositiveObserved);
          point := if positive.None? || IsUnknown(positive) then AskingHistory(view) else Deciding(view);
        case AskingHistory(view) => AskHistory(view, a);
        case Deciding(view) => point := Decide(State(), view, a).point;
        case Claiming(view, _) => ClaimEffect(view);
        case CallingPositive(_, _) => CallOutside(a);
        case AfterPositive(view) => point := ContinueAfterPositive(State(), view, a).point;
        case LookingAgain(view) =>
          if a.failed.Some? {
            point := Ending(RevokedObserved, UnknownFor(a.failed.value));
          } else if a.revoked {
            Note(RevokedObserved, Receipt(Recovered, a.detail), Challenging(view));
          } else {
            point := Revoking(view);
          }
        case Revoking(_) => CallOutside(a);
        case LookingAfterError(view, code) =>
          if a.failed.None? && a.revoked {
            Note(RevokedObserved, Receipt(Recovered, a.detail), Challenging(view));
          } else {
            point := Ending(RevokedObserved, UnknownFor(code));
          }
        case Challenging(view) =>
          if NegativeObserved in stages {
            point := if stages[NegativeObserved].status != Observed then Idle else Finishing;
          } else {
            CallOutside(a);
          }
        case Finishing => Note(Complete, Receipt(Completed, ""), Idle);
        case Ending(stage, receipt) => Note(stage, receipt, Idle);
      }
    }

    /**
     A whole resume under the lock, which dies where the answers end.  Receipts are only added, the positive effect is
     called at most once, only if no claim was on record and only after the store showed a passed and unrevoked
     qualification that the clock then found unexpired; a final receipt says what the resume saw, or is completion, which
     is on record only with all that it needs.
     */
    method ResumeOnce(answers: seq<Answer>)
      requires Valid() && point.Idle?
      modifies this
      ensures State() == Run(old(State()), ResumeEvents(answers))
      ensures Valid() && point.Idle? && Extends(old(stages), stages)
      ensures Count(effects, PositiveCall) <= 1
      ensures Count(effects, PositiveCall) > Count(old(effects), PositiveCall) ==>
                exists i, k :: 0 <= i < k < |answers| && answers[i].failed.None? && answers[i].view.passed && !answers[i].view.revoked &&
                               answers[k].now < answers[i].view.expires
      ensures Complete in stages && Complete !in old(stages) && stages[Complete] != Receipt(Completed, "") ==>
                exists i, k :: 0 <= i < k < |answers| && answers[i].failed.None? && Warrants(answers[i].view, answers[k].now, stages[Complete])
      ensures PositiveClaimed in old(stages) ==> Count(effects, PositiveCall) == Count(old(effects), PositiveCall)
      ensures Complete in stages && stages[Complete].status == Completed ==>
                PositiveReady(stages) && RevocationReady(stages) && NegativeReady(stages)
    {
      hide Step, WorldOk, Run, Extends, PositiveReady, RevocationReady, NegativeReady;
      ghost var start := State();
      WarrantedResume(start, answers);
      ghost var events := [Resume];
      RunOne(start, [], Resume);
      assert [] + [Resume] == events;
      assert Run(start, []) == start by { RunNone(start); }
      Between(start);
      point := Checking;
      for i := 0 to |answers|
        invariant Valid() && Extends(start.ledger, stages)
        invariant events == [Resume] + Advances(answers[..i])
        invariant State() == Run(start, events)
        invariant PositiveClaimed in start.ledger ==>
                    !point.CallingPositive? && Count(effects, PositiveCall) == Count(start.effects, PositiveCall)
      {
        ghost var before := State();
        if PositiveClaimed in start.ledger {
          ClaimStands(start.ledger, before.ledger);
          StepCallsNothing(before, answers[i]);
        }
        Proceed(answers[i]);
        ExtendsTransitive(start.ledger, before.ledger, stages);
        RunOne(start, events, Advance(answers[i]));
        assert Advances(answers[..i + 1]) == Advances(answers[..i]) + [Advance(answers[i])];
        assert [Resume] + Advances(answers[..i + 1]) == events + [Advance(answers[i])];
        events := events + [Advance(answers[i])];
      }
      assert answers[..|answers|] == answers;
      RunOne(start, events, Crash);
      Between(State());
      point := Idle;
    }
  }

  /** Two events of a resume, one after the other, are two of its answers. */
  lemma AnswersOf(answers: seq<Answer>, view: View, at: real)
    requires Timed(ResumeEvents(answers), view, at)
    ensures exists i, k :: 0 <= i < k < |answers| && answers[i].failed.None? && answers[i].view == view && answers[k].now == at
  {
    var events := ResumeEvents(answers);
    var j, k :| 0 <= j < k < |events| && Showed(events[j], view) && Told(events[k], at);
    assert events[j] == Advance(answers[j - 1]) && events[k] == Advance(answers[k - 1]);
    assert answers[j - 1].view == view && answers[k - 1].now == at;
  }

  lemma WarrantedResume(start: World, answers: seq<Answer>)
    requires WorldOk(start) && start.point.Idle?
    ensures var w := Run(start, ResumeEvents(answers));
            && (Count(w.effects, PositiveCall) > Count(start.effects, PositiveCall) ==>
                  exists i, k :: 0 <= i < k < |answers| && answers[i].failed.None? && answers[i].view.passed && !answers[i].view.revoked &&
                                 answers[k].now < answers[i].view.expires)
            && (Complete in w.ledger && Complete !in start.ledger && w.ledger[Complete] != Receipt(Completed, "") ==>
                  exists i, k :: 0 <= i < k < |answers| && answers[i].failed.None? && Warrants(answers[i].view, answers[k].now, w.ledger[Complete]))
  {
    hide Run, WorldOk, Count, Timed, Grounded, ResumeEvents, Warrants;
    var events := ResumeEvents(answers);
    RunRests(start, events);
    var w := Run(start, events);
    if Count(w.effects, PositiveCall) > Count(start.effects, PositiveCall) {
      var view, at :| Timed(events, view, at) && view.passed && !view.revoked && at < view.expires;
      AnswersOf(answers, view, at);
    }
    if Complete in w.ledger && Complete !in start.ledger && w.ledger[Complete] != Receipt(Completed, "") {
      var view, at :| Timed(events, view, at) && Warrants(view, at, w.ledger[Complete]);
      AnswersOf(answers, view, at);
    }
  }

  lemma RunNone(w: World)
    ensures Run(w, []) == w
  {
  }

  /** Between resumes, and at the entry of one, the invariant says what the promises need. */
  lemma Between(w: World)
    requires WorldOk(w)
    ensures WorldOk(At(w, Idle)) && WorldOk(At(w, Checking)) && Count(w.effects, PositiveCall) <= 1 && Extends(w.ledger, w.ledger)
    ensures Complete in w.ledger && w.ledger[Complete].status == Completed ==>
              PositiveReady(w.ledger) && RevocationReady(w.ledger) && NegativeReady(w.ledger)
  {
    hide Count, PositiveReady, RevocationReady, NegativeReady;
  }

  lemma ClaimStands(a: Ledger, b: Ledger)
    requires Extends(a, b) && PositiveClaimed in a
    ensures PositiveClaimed in b
  {
  }

  lemma ExtendsTransitive(a: Ledger, b: Ledger, c: Ledger)
    requires Extends(a, b) && Extends(b, c)
    ensures Extends(a, c)
  {
  }

  lemma RunOne(w: World, events: seq<Event>, e: Event)
    ensures Run(w, events + [e]) == Next(Run(w, events), e)
  {
    hide Next;
    assert (events + [e])[..|events|] == events;
  }
}
