/**
 What passing the local gate means, in every ledger the operations can produce.
 */
module CandidateGate {
  import opened Common
  import opened CandidateModel

  // ---------------------------------------------------------------- the gate as one condition

  /** Everything the gate asks for. */
  predicate GateOpen(l: Ledger, c: Candidate, now: Context, available: Available) {
    var n := LastReview(l.evidence, c.id);
    && SameContext(c, now) && Highest(l.candidates, c.content.series) == c.revision
    && AllAvailable(available, c.content.manifest)
    && ChecksValid(l.evidence, c, c.content.policy.checks, available)
    && n > 0 && l.evidence[n - 1].status == Passed && Readable(available, l.evidence[n - 1].log)
    && multiset(l.evidence[n - 1].input.cites) == multiset(LatestIds(l.evidence, c.id, c.content.policy.checks))
  }

  lemma OneCheck(reasons: seq<Reason>, evidence: seq<Evidence>, c: Candidate, check: Check, available: Available)
    ensures CheckReason(reasons, evidence, c.id, check.id, false, available) == [] <==>
            reasons == [] && ChecksValid(evidence, c, [check], available)
  {
    hide LastCheck;
    assert [check][0] == check;
  }

  /** A reason once noted stays. */
  lemma {:induction false} ReasonsStay(reasons: seq<Reason>, evidence: seq<Evidence>, candidate: Id, checks: seq<Check>, stale: bool,
                                       available: Available)
    requires reasons != []
    ensures CheckReasons(reasons, evidence, candidate, checks, stale, available) != []
    decreases |checks|
  {
    hide LastCheck, Effective;
    if checks != [] {
      ReasonsStay(CheckReason(reasons, evidence, candidate, checks[0].id, stale, available), evidence, candidate, checks[1..], stale, available);
    }
  }

  lemma {:induction false} ChecksMeaning(reasons: seq<Reason>, evidence: seq<Evidence>, c: Candidate, checks: seq<Check>, available: Available)
    ensures CheckReasons(reasons, evidence, c.id, checks, false, available) == [] <==>
            reasons == [] && ChecksValid(evidence, c, checks, available)
    decreases |checks|
  {
    hide CheckReason;
    if checks != [] {
      OneCheck(reasons, evidence, c, checks[0], available);
      ChecksMeaning(CheckReason(reasons, evidence, c.id, checks[0].id, false, available), evidence, c, checks[1..], available);
      SplitChecks(evidence, c, checks, available);
      hide ChecksValid;
    }
  }

  lemma SplitChecks(evidence: seq<Evidence>, c: Candidate, checks: seq<Check>, available: Available)
    requires checks != []
    ensures ChecksValid(evidence, c, checks, available) <==>
            ChecksValid(evidence, c, [checks[0]], available) && ChecksValid(evidence, c, checks[1..], available)
  {
    hide LastCheck, Readable;
    if ChecksValid(evidence, c, [checks[0]], available) && ChecksValid(evidence, c, checks[1..], available) {
      forall i | 0 <= i < |checks| ensures LastCheck(evidence, c.id, checks[i].id) > 0 {
        if i == 0 { assert [checks[0]][0] == checks[0]; } else { assert checks[1..][i - 1] == checks[i]; }
      }
      forall i | 0 <= i < |checks|
        ensures var n := LastCheck(evidence, c.id, checks[i].id);
                n > 0 && evidence[n - 1].status == Passed && Readable(available, evidence[n - 1].log)
      {
        if i == 0 { assert [checks[0]][0] == checks[0]; } else { assert checks[1..][i - 1] == checks[i]; }
      }
    }
  }

  lemma FirstMeans(changed: bool, superseded: bool, missing: bool)
    ensures First(changed, superseded, missing) == [] <==> !changed && !superseded && !missing
  {
  }

  /** The gate gives no reason exactly when everything it asks for holds. */
  lemma GateMeans(l: Ledger, c: Candidate, now: Context, available: Available)
    ensures GateReasons(l, c, now, available) == [] <==> GateOpen(l, c, now, available)
  {
    hide CheckReasons, ChecksValid, LatestIds, AllAvailable, Highest, LastReview, First;
    var changed := !SameContext(c, now);
    var superseded := Highest(l.candidates, c.content.series) != c.revision;
    var first := First(changed, superseded, !AllAvailable(available, c.content.manifest));
    FirstMeans(changed, superseded, !AllAvailable(available, c.content.manifest));
    ChecksMeaning(first, l.evidence, c, c.content.policy.checks, available);
    if first != [] { ReasonsStay(first, l.evidence, c.id, c.content.policy.checks, changed || superseded, available); }
    var checked := CheckReasons(first, l.evidence, c.id, c.content.policy.checks, changed || superseded, available);
    assert changed || superseded ==> first != [] && checked != [];
  }

  // ---------------------------------------------------------------- the ledger over time

  /** A review that was judged when the ledger held `seen` pieces of evidence, and is not stored yet. */
  datatype Draft = Draft(record: Evidence, seen: nat)

  datatype World = World(ledger: Ledger, drafts: map<nat, Draft>)

  const Empty := World(Ledger([], []), map[])

  datatype Step =
    | FreezeStep(content: Content, id: Id)
    | RebindStep(source: Id, reviewers: seq<Reviewer>, id: Id)
    | CheckStep(input: Input, log: Option<Artifact>, id: Id)
    | JudgeStep(caller: nat, input: Input, log: Option<Artifact>, id: Id, available: Available)
    | StoreStep(caller: nat)
    | CrashStep(caller: nat)

  function Commit(w: World, saved: Saved): World {
    if saved.Ok? then w.(ledger := saved.ledger) else w
  }

  function RecordCheck(l: Ledger, input: Input, log: Option<Artifact>, id: Id): Saved
    requires input.CheckInput?
  {
    var c := Find(l.candidates, input.candidate);
    if c.None? then Err(CandidateNotFound) else Save(l, Evidence(id, input, CheckStatus(c.value, input, log), log))
  }

  /** A review is judged against the ledger as it is read; it is stored by a later transaction. */
  function Judge(w: World, caller: nat, input: Input, log: Option<Artifact>, id: Id, available: Available): World
    requires input.ReviewInput?
  {
    var l := w.ledger;
    var c := Find(l.candidates, input.candidate);
    if c.None? then w
    else
      var record := Evidence(id, input, ReviewStatus(l.evidence, c.value, input, log, available), log);
      w.(drafts := w.drafts[caller := Draft(record, |l.evidence|)])
  }

  function Next(w: World, s: Step): World {
    match s
    case FreezeStep(content, id) => Commit(w, Freeze(w.ledger, content, id))
    case RebindStep(source, reviewers, id) => Commit(w, Rebind(w.ledger, source, reviewers, id))
    case CheckStep(input, log, id) => if input.CheckInput? then Commit(w, RecordCheck(w.ledger, input, log, id)) else w
    case JudgeStep(caller, input, log, id, available) => if input.ReviewInput? then Judge(w, caller, input, log, id, available) else w
    case StoreStep(caller) =>
      if caller in w.drafts then Commit(w, Save(w.ledger, w.drafts[caller].record)).(drafts := w.drafts - {caller}) else w
    case CrashStep(caller) => w.(drafts := w.drafts - {caller})
  }

  function Run(w: World, steps: seq<Step>): World {
    if steps == [] then w else Next(Run(w, steps[..|steps| - 1]), steps[|steps| - 1])
  }

  // ---------------------------------------------------------------- the invariant

  predicate CandidatesOk(cs: seq<Candidate>) {
    && (forall i, j :: 0 <= i < j < |cs| ==> cs[i].id != cs[j].id)
    && (forall i, j :: 0 <= i < j < |cs| && cs[i].content.series == cs[j].content.series ==> cs[i].revision < cs[j].revision)
    && (forall i :: 0 <= i < |cs| ==> cs[i].revision > 0 && Unambiguous(cs[i].content.policy))
  }

  predicate DistinctIds(evidence: seq<Evidence>) {
    forall i, j :: 0 <= i < j < |evidence| ==> evidence[i].id != evidence[j].id
  }

  /** A check recorded as passed ran to the end with exit code zero, as the candidate's policy describes it. */
  predicate CheckSound(candidates: seq<Candidate>, e: Evidence) {
    e.input.CheckInput? && e.status == Passed ==>
      var c := Find(candidates, e.input.candidate);
      c.Some? && CheckBound(c.value, e.input) && e.input.outcome == Completed && e.input.exit == Some(0) && Logged(e.log)
  }

  /** A review recorded as passed was independent, and cites the latest checks of some earlier moment. */
  predicate ReviewSound(candidates: seq<Candidate>, earlier: seq<Evidence>, seen: nat, e: Evidence)
    requires seen <= |earlier|
  {
    e.input.ReviewInput? && e.status == Passed ==>
      var c := Find(candidates, e.input.candidate);
      && c.Some? && Independent(c.value, e.input) && FamilyIndependent(c.value, e.input)
      && e.input.verdict == Passed && !e.input.blocking && Logged(e.log)
      && multiset(e.input.cites) == multiset(LatestIds(earlier[..seen], c.value.id, c.value.content.policy.checks))
  }

  predicate EvidenceSound(l: Ledger, i: nat)
    requires i < |l.evidence|
  {
    CheckSound(l.candidates, l.evidence[i]) && exists seen :: 0 <= seen <= i && ReviewSound(l.candidates, l.evidence, seen, l.evidence[i])
  }

  predicate LedgerOk(l: Ledger) {
    CandidatesOk(l.candidates) && DistinctIds(l.evidence) && forall i :: 0 <= i < |l.evidence| ==> EvidenceSound(l, i)
  }

  predicate DraftOk(l: Ledger, d: Draft) {
    d.record.input.ReviewInput? && d.seen <= |l.evidence| && ReviewSound(l.candidates, l.evidence, d.seen, d.record)
  }

  ghost predicate WorldOk(w: World) {
    LedgerOk(w.ledger) && forall k :: k in w.drafts ==> DraftOk(w.ledger, w.drafts[k])
  }

  predicate Extends(a: Ledger, b: Ledger) {
    a.candidates <= b.candidates && a.evidence <= b.evidence
  }

  /** A candidate, once found, is found for good. */
  lemma {:induction false} FindStays(a: seq<Candidate>, b: seq<Candidate>, id: Id)
    requires a <= b && Find(a, id).Some?
    ensures Find(b, id) == Find(a, id)
  {
    if a[0].id != id {
      assert a[1..] <= b[1..];
      FindStays(a[1..], b[1..], id);
    }
  }

  lemma ReviewStays(a: Ledger, b: Ledger, seen: nat, e: Evidence)
    requires Extends(a, b) && seen <= |a.evidence| && ReviewSound(a.candidates, a.evidence, seen, e)
    ensures ReviewSound(b.candidates, b.evidence, seen, e)
  {
    hide Find, LatestIds, Independent, FamilyIndependent;
    assert b.evidence[..seen] == a.evidence[..seen];
    if e.input.ReviewInput? && e.status == Passed { FindStays(a.candidates, b.candidates, e.input.candidate); }
  }

  lemma SoundStays(a: Ledger, b: Ledger, i: nat)
    requires Extends(a, b) && i < |a.evidence| && EvidenceSound(a, i)
    ensures EvidenceSound(b, i)
  {
    hide Find, ReviewSound;
    var e := a.evidence[i];
    assert b.evidence[i] == e;
    if e.input.CheckInput? && e.status == Passed { FindStays(a.candidates, b.candidates, e.input.candidate); }
    var seen :| 0 <= seen <= i && ReviewSound(a.candidates, a.evidence, seen, e);
    ReviewStays(a, b, seen, e);
  }

  /** More candidates change nothing about the evidence. */
  lemma CandidatesGrow(w: World, cs: seq<Candidate>)
    requires WorldOk(w) && w.ledger.candidates <= cs && CandidatesOk(cs)
    ensures WorldOk(w.(ledger := w.ledger.(candidates := cs)))
  {
    hide EvidenceSound, ReviewSound;
    var b := w.ledger.(candidates := cs);
    forall i | 0 <= i < |b.evidence| ensures EvidenceSound(b, i) { SoundStays(w.ledger, b, i); }
    forall k | k in w.drafts ensures DraftOk(b, w.drafts[k]) {
      assert DraftOk(w.ledger, w.drafts[k]);
      ReviewStays(w.ledger, b, w.drafts[k].seen, w.drafts[k].record);
    }
  }

  /** One more sound piece of evidence. */
  lemma EvidenceGrows(w: World, e: Evidence, seen: nat)
    requires WorldOk(w) && CheckSound(w.ledger.candidates, e) && seen <= |w.ledger.evidence|
    requires ReviewSound(w.ledger.candidates, w.ledger.evidence, seen, e)
    requires forall k :: 0 <= k < |w.ledger.evidence| ==> w.ledger.evidence[k].id != e.id
    ensures WorldOk(w.(ledger := w.ledger.(evidence := w.ledger.evidence + [e])))
  {
    hide ReviewSound, CheckSound, CandidatesOk;
    var a := w.ledger;
    var b := a.(evidence := a.evidence + [e]);
    forall i | 0 <= i < |b.evidence| ensures EvidenceSound(b, i) {
      if i < |a.evidence| {
        SoundStays(a, b, i);
      } else {
        ReviewStays(a, b, seen, e);
      }
    }
    forall k | k in w.drafts ensures DraftOk(b, w.drafts[k]) {
      assert DraftOk(a, w.drafts[k]);
      ReviewStays(a, b, w.drafts[k].seen, w.drafts[k].record);
    }
  }

  lemma AppendCandidate(cs: seq<Candidate>, c: Candidate)
    requires CandidatesOk(cs) && c.revision > 0 && Unambiguous(c.content.policy) && forall d :: d in cs ==> d.id != c.id
    requires forall d :: d in cs && d.content.series == c.content.series ==> d.revision < c.revision
    ensures CandidatesOk(cs + [c])
  {
    hide Unambiguous;
    var all := cs + [c];
    forall i, j | 0 <= i < j < |all| ensures all[i].id != all[j].id {
      if j == |cs| { assert all[i] in cs; }
    }
    forall i, j | 0 <= i < j < |all| && all[i].content.series == all[j].content.series ensures all[i].revision < all[j].revision {
      if j == |cs| { assert all[i] in cs; }
    }
  }

  lemma FreezeKeeps(w: World, content: Content, id: Id)
    requires WorldOk(w)
    ensures WorldOk(Commit(w, Freeze(w.ledger, content, id)))
  {
    hide WorldOk, CandidatesOk, Unambiguous, Newest, Find;
    var saved := Freeze(w.ledger, content, id);
    if saved.Ok? && saved.ledger != w.ledger {
      var cs := w.ledger.candidates;
      assert CandidatesOk(cs) by { CandidatePart(w); }
      AppendCandidate(cs, saved.ledger.candidates[|cs|]);
      CandidatesGrow(w, saved.ledger.candidates);
    }
  }

  lemma CandidatePart(w: World)
    requires WorldOk(w)
    ensures CandidatesOk(w.ledger.candidates) && DistinctIds(w.ledger.evidence)
    ensures forall k :: k in w.drafts ==> DraftOk(w.ledger, w.drafts[k])
  {
  }

  lemma RebindKeeps(w: World, source: Id, reviewers: seq<Reviewer>, id: Id)
    requires WorldOk(w)
    ensures WorldOk(Commit(w, Rebind(w.ledger, source, reviewers, id)))
  {
    hide WorldOk, Highest, Find;
    var saved := Rebind(w.ledger, source, reviewers, id);
    if saved.Ok? {
      var cs := w.ledger.candidates;
      CandidatePart(w);
      AppendCandidate(cs, saved.ledger.candidates[|cs|]);
      CandidatesGrow(w, saved.ledger.candidates);
    }
  }

  lemma CheckKeeps(w: World, input: Input, log: Option<Artifact>, id: Id)
    requires WorldOk(w) && input.CheckInput?
    ensures WorldOk(Commit(w, RecordCheck(w.ledger, input, log, id)))
  {
    hide WorldOk, Find, CheckBound, FindKey;
    var saved := RecordCheck(w.ledger, input, log, id);
    if saved.Ok? && saved.ledger != w.ledger {
      var e := saved.ledger.evidence[|w.ledger.evidence|];
      EvidenceGrows(w, e, 0);
    }
  }

  lemma JudgeKeeps(w: World, caller: nat, input: Input, log: Option<Artifact>, id: Id, available: Available)
    requires WorldOk(w) && input.ReviewInput?
    ensures WorldOk(Judge(w, caller, input, log, id, available))
  {
    hide LedgerOk, Find, LatestIds, Independent, FamilyIndependent, ChecksValid;
    var c := Find(w.ledger.candidates, input.candidate);
    if c.Some? {
      var after := Judge(w, caller, input, log, id, available);
      var l := w.ledger;
      assert l.evidence[..|l.evidence|] == l.evidence;
      assert DraftOk(l, after.drafts[caller]);
      hide ReviewSound, Judge;
    }
  }

  lemma StoreKeeps(w: World, caller: nat)
    requires WorldOk(w) && caller in w.drafts
    ensures WorldOk(Next(w, StoreStep(caller)))
  {
    hide LedgerOk, DraftOk, FindKey;
    var d := w.drafts[caller];
    var saved := Save(w.ledger, d.record);
    assert DraftOk(w.ledger, d);
    if saved.Ok? && saved.ledger != w.ledger {
      DraftParts(w.ledger, d);
      EvidenceGrows(w, d.record, d.seen);
    }
  }

  lemma DraftParts(l: Ledger, d: Draft)
    requires DraftOk(l, d)
    ensures CheckSound(l.candidates, d.record) && d.seen <= |l.evidence| && ReviewSound(l.candidates, l.evidence, d.seen, d.record)
  {
  }

  lemma NextKeeps(w: World, s: Step)
    requires WorldOk(w)
    ensures WorldOk(Next(w, s)) && Extends(w.ledger, Next(w, s).ledger)
  {
    hide WorldOk, Freeze, Rebind, RecordCheck, Judge;
    match s {
      case FreezeStep(content, id) => FreezeKeeps(w, content, id);
      case RebindStep(source, reviewers, id) => RebindKeeps(w, source, reviewers, id);
      case CheckStep(input, log, id) => if input.CheckInput? { CheckKeeps(w, input, log, id); }
      case JudgeStep(caller, input, log, id, available) => if input.ReviewInput? { JudgeKeeps(w, caller, input, log, id, available); }
      case StoreStep(caller) => if caller in w.drafts { StoreKeeps(w, caller); }
      case CrashStep(caller) => DropDraft(w, caller);
    }
    NextExtends(w, s);
  }

  lemma DropDraft(w: World, caller: nat)
    requires WorldOk(w)
    ensures WorldOk(w.(drafts := w.drafts - {caller}))
  {
    hide LedgerOk, DraftOk;
  }

  lemma NextExtends(w: World, s: Step)
    ensures Extends(w.ledger, Next(w, s).ledger)
  {
    hide Find, Newest, Highest, FindKey, CheckStatus, ReviewStatus, Unambiguous;
  }

  lemma {:induction false} RunKeeps(w: World, steps: seq<Step>)
    requires WorldOk(w)
    ensures WorldOk(Run(w, steps)) && Extends(w.ledger, Run(w, steps).ledger)
  {
    hide WorldOk, Next;
    if steps != [] {
      RunKeeps(w, steps[..|steps| - 1]);
      NextKeeps(Run(w, steps[..|steps| - 1]), steps[|steps| - 1]);
    }
  }

  lemma Reached(steps: seq<Step>)
    ensures WorldOk(Run(Empty, steps))
  {
    hide Run;
    assert WorldOk(Empty);
    RunKeeps(Empty, steps);
  }

  // ---------------------------------------------------------------- what a passed gate means

  lemma {:induction false} LatestIdsHold(evidence: seq<Evidence>, candidate: Id, checks: seq<Check>, k: nat)
    requires k < |checks| && LastCheck(evidence, candidate, checks[k].id) > 0
    ensures evidence[LastCheck(evidence, candidate, checks[k].id) - 1].id in LatestIds(evidence, candidate, checks)
  {
    hide LastCheck;
    if k > 0 { LatestIdsHold(evidence, candidate, checks[1..], k - 1); }
  }

  lemma {:induction false} LatestIdsFrom(evidence: seq<Evidence>, candidate: Id, checks: seq<Check>, id: Id)
    requires id in LatestIds(evidence, candidate, checks)
    ensures exists i :: 0 <= i < |evidence| && evidence[i].id == id
  {
    hide LastCheck;
    if checks != [] {
      var n := LastCheck(evidence, candidate, checks[0].id);
      if n > 0 && evidence[n - 1].id == id {
      } else {
        LatestIdsFrom(evidence, candidate, checks[1..], id);
      }
    }
  }

  /** A passing candidate's latest review is newer than the latest evidence of every check of its policy. */
  lemma ReviewIsNewest(l: Ledger, c: Candidate, now: Context, available: Available, k: nat)
    requires LedgerOk(l) && Find(l.candidates, c.id) == Some(c) && GateOpen(l, c, now, available) && k < |c.content.policy.checks|
    ensures 0 < LastCheck(l.evidence, c.id, c.content.policy.checks[k].id) < LastReview(l.evidence, c.id)
  {
    hide LastCheck, LastReview, CandidatesOk, Find, LatestIds, AllAvailable, SameContext, Independent, FamilyIndependent, Highest;
    var checks := c.content.policy.checks;
    var n := LastReview(l.evidence, c.id);
    var m := LastCheck(l.evidence, c.id, checks[k].id);
    var review := l.evidence[n - 1];
    assert EvidenceSound(l, n - 1);
    var seen :| 0 <= seen <= n - 1 && ReviewSound(l.candidates, l.evidence, seen, review);
    var cited := LatestIds(l.evidence[..seen], c.id, checks);
    LatestIdsHold(l.evidence, c.id, checks, k);
    var id := l.evidence[m - 1].id;
    assert id in multiset(LatestIds(l.evidence, c.id, checks));
    assert id in multiset(cited);
    LatestIdsFrom(l.evidence[..seen], c.id, checks, id);
    var i :| 0 <= i < seen && l.evidence[..seen][i].id == id;
    assert l.evidence[i].id == id;
  }

  /**
   In every ledger the operations can produce, a candidate that passes the gate is the newest of its series, every check
   of its policy last ran to exit code zero as the policy describes it with a log that can still be read, and the latest
   review, newer than all of those, cites exactly them, passed, and came from an approved reviewer who shares no attempt
   or context (and, for the highest class, no model family) with any author.
   */
  lemma GateIsSound(steps: seq<Step>, id: Id, now: Context, available: Available)
    ensures var l := Run(Empty, steps).ledger;
            var found := Find(l.candidates, id);
            found.Some? && GateReasons(l, found.value, now, available) == [] ==>
              var c := found.value;
              var n := LastReview(l.evidence, id);
              && (forall d :: d in l.candidates && d.content.series == c.content.series ==> d.revision <= c.revision)
              && (forall k :: 0 <= k < |c.content.policy.checks| ==>
                    CheckDone(l, c, c.content.policy.checks[k], available) &&
                    LastCheck(l.evidence, id, c.content.policy.checks[k].id) < n)
              && n > 0 && ReviewDone(l, c, l.evidence[n - 1], available)
  {
    hide Run, LastCheck, LastReview, CandidatesOk, DistinctIds, Find, LatestIds, GateReasons, AllAvailable, Highest, Independent, FamilyIndependent;
    Reached(steps);
    var l := Run(Empty, steps).ledger;
    var found := Find(l.candidates, id);
    if found.Some? && GateReasons(l, found.value, now, available) == [] {
      var c := found.value;
      GateMeans(l, c, now, available);
      forall k | 0 <= k < |c.content.policy.checks|
        ensures CheckDone(l, c, c.content.policy.checks[k], available) &&
                LastCheck(l.evidence, id, c.content.policy.checks[k].id) < LastReview(l.evidence, id)
      {
        ReviewIsNewest(l, c, now, available, k);
        assert EvidenceSound(l, LastCheck(l.evidence, id, c.content.policy.checks[k].id) - 1);
      }
      assert EvidenceSound(l, LastReview(l.evidence, id) - 1);
    }
  }

  predicate CheckDone(l: Ledger, c: Candidate, check: Check, available: Available) {
    var m := LastCheck(l.evidence, c.id, check.id);
    && m > 0 && l.evidence[m - 1].status == Passed && Readable(available, l.evidence[m - 1].log)
    && CheckBound(c, l.evidence[m - 1].input) && l.evidence[m - 1].input.outcome == Completed && l.evidence[m - 1].input.exit == Some(0)
  }

  predicate ReviewDone(l: Ledger, c: Candidate, e: Evidence, available: Available)
    requires e.input.ReviewInput?
  {
    && e.status == Passed && e.input.verdict == Passed && !e.input.blocking && Readable(available, e.log)
    && Independent(c, e.input) && FamilyIndependent(c, e.input)
    && multiset(e.input.cites) == multiset(LatestIds(l.evidence, c.id, c.content.policy.checks))
  }

  /** New evidence for a check of the policy closes the gate, and only a review recorded after it can open it again. */
  lemma NewEvidenceCloses(steps: seq<Step>, id: Id, now: Context, available: Available, k: nat)
    ensures var l := Run(Empty, steps).ledger;
            var found := Find(l.candidates, id);
            found.Some? && k < |found.value.content.policy.checks| &&
            LastCheck(l.evidence, id, found.value.content.policy.checks[k].id) > LastReview(l.evidence, id) ==>
              GateReasons(l, found.value, now, available) != []
  {
    hide Run, LastCheck, LastReview, Find, GateReasons, GateOpen, LedgerOk;
    Reached(steps);
    var l := Run(Empty, steps).ledger;
    var found := Find(l.candidates, id);
    if found.Some? && k < |found.value.content.policy.checks| {
      GateMeans(l, found.value, now, available);
      if GateOpen(l, found.value, now, available) { ReviewIsNewest(l, found.value, now, available, k); }
    }
  }

  /** At most one candidate of a series passes the gate. */
  lemma OnePerSeries(steps: seq<Step>, c: Candidate, d: Candidate, now: Context, other: Context, available: Available, later: Available)
    ensures var l := Run(Empty, steps).ledger;
            c in l.candidates && d in l.candidates && c.content.series == d.content.series &&
            GateReasons(l, c, now, available) == [] && GateReasons(l, d, other, later) == [] ==>
              c == d
  {
    hide Run, LastReview, GateReasons, LatestIds, ChecksValid, AllAvailable, EvidenceSound, Highest;
    Reached(steps);
    var l := Run(Empty, steps).ledger;
    GateMeans(l, c, now, available);
    GateMeans(l, d, other, later);
  }
}
