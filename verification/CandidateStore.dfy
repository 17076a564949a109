/**
 The candidate store object: both tables are fields that grow, and the gate collects its reasons in loops.
 */
module CandidateStore {
  import opened Common
  import opened CandidateModel
  import opened CandidateGate
  import opened CandidateMeaning

  class Store {
    var candidates: seq<Candidate>
    var evidence: seq<Evidence>

    function Contents(): Ledger
      reads this
    {
      Ledger(candidates, evidence)
    }

    /** Identities, revisions and evidence keys are never given out twice. */
    ghost predicate Valid()
      reads this
    {
      CandidatesOk(candidates) && DistinctIds(evidence) && DistinctKeys(evidence)
    }

    constructor ()
      ensures Valid() && Contents() == Ledger([], [])
    {
      candidates, evidence := [], [];
    }

    // -------------------------------------------------------------- candidates

    /** Reads the candidate of a series with the highest revision. */
    method ReadNewest(series: Id) returns (r: Option<Candidate>)
      ensures r == Newest(candidates, series)
    {
      r := None;
      for i := 0 to |candidates|
        invariant r == Newest(candidates[..i], series)
      {
        assert candidates[..i + 1][..i] == candidates[..i];
        var c := candidates[i];
        if c.content.series == series && (r.None? || c.revision > r.value.revision) { r := Some(c); }
      }
      assert candidates[..|candidates|] == candidates;
    }

    /** `MAX(revision)` of a series. */
    method ReadHighest(series: Id) returns (n: nat)
      ensures n == Highest(candidates, series)
    {
      n := 0;
      for i := 0 to |candidates|
        invariant n == Highest(candidates[..i], series)
      {
        assert candidates[..i + 1][..i] == candidates[..i];
        if candidates[i].content.series == series && candidates[i].revision > n { n := candidates[i].revision; }
      }
      assert candidates[..|candidates|] == candidates;
    }

    /** Afterwards the newest candidate of the series has this content; earlier ones are kept. */
    method FreezeRevision(content: Content, id: Id) returns (error: Option<Error>)
      requires Valid()
      modifies this`candidates
      ensures Valid() && old(candidates) <= candidates && |candidates| <= |old(candidates)| + 1
      ensures error.None? ==> Newest(candidates, content.series).Some? && Newest(candidates, content.series).value.content == content
      ensures error.None? <==> Unambiguous(content.policy) && (Repeats(old(candidates), content) || Unused(old(candidates), id))
      ensures error.None? && !Repeats(old(candidates), content) ==> Appended(old(Contents()), Contents(), id, content)
      ensures error.Some? || Repeats(old(candidates), content) ==> Contents() == old(Contents())
      ensures var r := Freeze(old(Contents()), content, id);
              && (r.Ok? ==> error.None? && Contents() == r.ledger)
              && (r.Err? ==> error == Some(r.error) && Contents() == old(Contents()))
    {
      hide CandidatesOk, Unambiguous, Newest, Find, Repeats, Appended;
      FreezeExactly(Contents(), content, id);
      if !Unambiguous(content.policy) { return Some(PolicyAmbiguous); }
      var previous := ReadNewest(content.series);
      if previous.Some? && previous.value.content == content { return None; }
      if Find(candidates, id).Some? { return Some(IdentityTaken); }
      var next := Candidate(id, (if previous.Some? then previous.value.revision else 0) + 1, content);
      AppendCandidate(candidates, next);
      AppendedIsNewest(candidates, next);
      candidates := candidates + [next];
      return None;
    }

    method RebindReviewers(source: Id, reviewers: seq<Reviewer>, id: Id) returns (error: Option<Error>)
      requires Valid()
      modifies this`candidates
      ensures Valid() && old(candidates) <= candidates && |candidates| <= |old(candidates)| + 1
      ensures error.None? <==>
                && DistinctReviewers(reviewers) && Unused(old(candidates), id)
                && exists c :: IsNewest(old(candidates), c) && c.id == source
      ensures forall c :: error.None? && c in old(candidates) && c.id == source ==>
                Appended(old(Contents()), Contents(), id, c.content.(policy := c.content.policy.(reviewers := reviewers)))
      ensures var r := Rebind(old(Contents()), source, reviewers, id);
              && (r.Ok? ==> error.None? && Contents() == r.ledger)
              && (r.Err? ==> error == Some(r.error) && Contents() == old(Contents()))
    {
      hide CandidatesOk, Find, Highest, DistinctReviewers, IsNewest, Unused, Appended;
      RebindExactly(Contents(), source, reviewers, id);
      if !DistinctReviewers(reviewers) { return Some(PolicyAmbiguous); }
      var c := Find(candidates, source);
      if c.None? { return Some(CandidateNotFound); }
      var highest := ReadHighest(c.value.content.series);
      if highest != c.value.revision { return Some(CandidateSuperseded); }
      if Find(candidates, id).Some? { return Some(IdentityTaken); }
      var content := c.value.content.(policy := c.value.content.policy.(reviewers := reviewers));
      Rebound(candidates, c.value, reviewers, Candidate(id, c.value.revision + 1, content));
      candidates := candidates + [Candidate(id, c.value.revision + 1, content)];
      return None;
    }

    // -------------------------------------------------------------- evidence

    /**
     Stores evidence once per key.  Success means that exactly this observation, with this log, is on record under the
     key, from now or from before; a key taken by another observation conflicts; nothing recorded ever changes.
     */
    method SaveEvidence(e: Evidence) returns (error: Option<Error>)
      requires Valid()
      modifies this`evidence
      ensures Valid() && old(evidence) <= evidence && |evidence| <= |old(evidence)| + 1
      ensures error.None? ==> exists k :: 0 <= k < |evidence| && evidence[k].input == e.input && evidence[k].log == e.log
      ensures Recorded(old(evidence), e.input.key) ==> evidence == old(evidence)
      ensures error == Some(KeyConflict) <==>
                exists k :: 0 <= k < |old(evidence)| && old(evidence)[k].input.key == e.input.key &&
                            (old(evidence)[k].input != e.input || old(evidence)[k].log != e.log)
      ensures error == Some(IdentityTaken) <==>
                !Recorded(old(evidence), e.input.key) && exists k :: 0 <= k < |old(evidence)| && old(evidence)[k].id == e.id
      ensures error.None? && !Recorded(old(evidence), e.input.key) ==> evidence == old(evidence) + [e]
      ensures var r := Save(old(Contents()), e);
              && (r.Ok? ==> error.None? && Contents() == r.ledger)
              && (r.Err? ==> error == Some(r.error) && Contents() == old(Contents()))
    {
      var previous := FindKey(evidence, e.input.key);
      FoundKey(evidence, e.input.key);
      hide FindKey;
      if previous.Some? {
        return if previous.value.input != e.input || previous.value.log != e.log then Some(KeyConflict) else None;
      }
      if exists k :: 0 <= k < |evidence| && evidence[k].id == e.id { return Some(IdentityTaken); }
      evidence := evidence + [e];
      assert evidence[|evidence| - 1] == e;
      return None;
    }

    /** The position after the last evidence of a check; zero when there is none. */
    method FindLastCheck(candidate: Id, check: Id) returns (n: nat)
      ensures n == LastCheck(evidence, candidate, check)
    {
      n := 0;
      for i := 0 to |evidence|
        invariant n == LastCheck(evidence[..i], candidate, check)
      {
        assert evidence[..i + 1][..i] == evidence[..i];
        if IsCheck(evidence[i], candidate, check) { n := i + 1; }
      }
      assert evidence[..|evidence|] == evidence;
    }

    method FindLastReview(candidate: Id) returns (n: nat)
      ensures n == LastReview(evidence, candidate)
    {
      n := 0;
      for i := 0 to |evidence|
        invariant n == LastReview(evidence[..i], candidate)
      {
        assert evidence[..i + 1][..i] == evidence[..i];
        if IsReview(evidence[i], candidate) { n := i + 1; }
      }
      assert evidence[..|evidence|] == evidence;
    }

    /** The identities a review must cite, and whether every check behind them passed with a readable log. */
    method RequiredChecks(c: Candidate, available: Available) returns (ids: seq<Id>, valid: bool)
      ensures ids == LatestIds(evidence, c.id, c.content.policy.checks)
      ensures valid <==> ChecksValid(evidence, c, c.content.policy.checks, available)
      ensures valid <==> AllPassed(evidence, c, available)
      ensures forall id :: id in ids <==> IsLatest(evidence, c.id, c.content.policy.checks, id)
    {
      hide LatestIds, ChecksValid, LastCheck, Readable, AllPassed, IsLatest;
      RequiredExactly(evidence, c, available);
      var checks := c.content.policy.checks;
      ids, valid := [], true;
      assert checks[0..] == checks;
      assert ChecksValid(evidence, c, checks[..0], available) by { NoChecks(evidence, c, checks[..0], available); }
      for i := 0 to |checks|
        invariant ids + LatestIds(evidence, c.id, checks[i..]) == LatestIds(evidence, c.id, checks)
        invariant valid <==> ChecksValid(evidence, c, checks[..i], available)
      {
        var n := FindLastCheck(c.id, checks[i].id);
        LatestIdsNext(evidence, c.id, checks, i);
        OneMoreCheck(evidence, c, checks, i, available);
        if n > 0 { ids := ids + [evidence[n - 1].id]; }
        valid := valid && n > 0 && evidence[n - 1].status == Passed && Readable(available, evidence[n - 1].log);
      }
      assert checks[..|checks|] == checks;
      LatestIdsEnd(evidence, c.id, checks);
    }

    /** The status of a check, found by the check's name in the candidate's policy. */
    method JudgeCheck(c: Candidate, input: Input, log: Option<Artifact>) returns (status: Status)
      requires input.CheckInput? && Valid() && c in candidates
      ensures status == CheckStatus(c, input, log)
      ensures status == Passed <==> NamesCheck(c, input) && input.outcome == Completed && input.exit == Some(0) && NonEmpty(log)
      ensures status == Unavailable <==> NamesCheck(c, input) && input.outcome == Completed && input.exit == Some(0) && !NonEmpty(log)
      ensures status == Failed <==> NamesCheck(c, input) && input.outcome == Completed && input.exit.Some? && input.exit.value != 0
      ensures status == Inconclusive <==> NamesCheck(c, input) && (input.outcome == NotCompleted || input.exit.None?)
      ensures status == Invalidated <==> !NamesCheck(c, input)
    {
      assert Unambiguous(c.content.policy);
      hide CandidatesOk, FindCheck, Unambiguous, NamesCheck;
      CheckExactly(c, input, log);
      status := Passed;
      if input.outcome != Completed || input.exit.None? {
        status := Inconclusive;
      } else if input.exit.value != 0 {
        status := Failed;
      } else if !Logged(log) {
        status := Unavailable;
      }
      var expected := FindCheck(c.content.policy.checks, input.check);
      if input.policy != c.content.policy || input.input != c.content.input || expected.None? ||
         expected.value.revision != input.checkRevision || expected.value.environment != input.environment
      {
        status := Invalidated;
      }
    }

    /**
     A review judged against the evidence as it stands: it counts if it speaks of this candidate, cites exactly the
     passed checks and comes from an approved outsider; then its verdict decides, unless it blocks or has no log.
     */
    method JudgeReview(c: Candidate, input: Input, log: Option<Artifact>, available: Available) returns (status: Status)
      requires input.ReviewInput? && Valid() && c in candidates
      ensures status == ReviewStatus(evidence, c, input, log, available)
      ensures var counts := Counts(evidence, c, input, available);
              && (status == Passed <==> counts && !input.blocking && input.verdict == Passed && NonEmpty(log))
              && (status == Unavailable <==> counts && !input.blocking && input.verdict == Passed && !NonEmpty(log))
              && (status == Failed <==> counts && (input.blocking || input.verdict == Failed))
              && (status == Inconclusive <==> counts && !input.blocking && input.verdict == Inconclusive)
              && (status == Invalidated <==> !counts)
    {
      assert Unambiguous(c.content.policy);
      hide CandidatesOk, LatestIds, ChecksValid, AllPassed, IsLatest, Counts, Independent, FamilyIndependent, Unambiguous, DistinctIds;
      ReviewExactly(evidence, c, input, log, available);
      var policy := c.content.policy;
      var ids, valid := RequiredChecks(c, available);
      var bound := input.policy == policy && input.input == c.content.input && input.environment == policy.environment &&
                   input.reviewRevision == policy.reviewRevision && valid && multiset(ids) == multiset(input.cites);
      status := input.verdict;
      if input.blocking {
        status := Failed;
      } else if !Logged(log) && status == Passed {
        status := Unavailable;
      }
      if !bound || !Independent(c, input) || !FamilyIndependent(c, input) { status := Invalidated; }
    }

    // -------------------------------------------------------------- the gate

    /** The gate, collecting its reasons check by check. */
    method Gate(c: Candidate, now: Context, available: Available) returns (reasons: seq<Reason>)
      ensures reasons == GateReasons(Contents(), c, now, available)
      ensures Valid() && c in candidates ==> (reasons == [] <==> MayPass(Contents(), c, now, available))
      ensures Valid() && c in candidates ==> forall r :: r in reasons <==> Given(Contents(), c, now, available, r)
    {
      hide MayPass, Given, CandidatesOk, DistinctIds, DistinctKeys;
      GateDecides(Contents(), c, now, available);
      hide Highest, CheckReasons, ReviewReasons, LatestIds, AllAvailable, SameContext;
      reasons := [];
      var changed := !SameContext(c, now);
      if changed { reasons := reasons + [ContextChanged]; }
      var highest := ReadHighest(c.content.series);
      var superseded := highest != c.revision;
      if superseded { reasons := reasons + [Superseded]; }
      if !AllAvailable(available, c.content.manifest) { reasons := reasons + [ArtifactUnavailable]; }
      assert reasons == First(changed, superseded, !AllAvailable(available, c.content.manifest));
      var stale := changed || superseded;
      var checked, ids := GateChecks(c, stale, reasons, available);
      reasons := GateReview(c, stale, ids, checked, available);
    }

    method GateChecks(c: Candidate, stale: bool, before: seq<Reason>, available: Available) returns (reasons: seq<Reason>, ids: seq<Id>)
      ensures reasons == CheckReasons(before, evidence, c.id, c.content.policy.checks, stale, available)
      ensures ids == LatestIds(evidence, c.id, c.content.policy.checks)
    {
      hide LatestIds, CheckReasons, LastCheck, CheckReason, IsCheck;
      var checks := c.content.policy.checks;
      reasons, ids := before, [];
      assert checks[0..] == checks;
      for i := 0 to |checks|
        invariant CheckReasons(reasons, evidence, c.id, checks[i..], stale, available) ==
                  CheckReasons(before, evidence, c.id, checks, stale, available)
        invariant ids + LatestIds(evidence, c.id, checks[i..]) == LatestIds(evidence, c.id, checks)
      {
        LatestIdsNext(evidence, c.id, checks, i);
        CheckReasonsNext(reasons, evidence, c.id, checks, i, stale, available);
        var n := FindLastCheck(c.id, checks[i].id);
        var latest := if n > 0 then [evidence[n - 1].id] else [];
        ids := ids + latest;
        reasons := GateCheck(c.id, checks[i].id, n, stale, reasons, available);
      }
      LatestIdsEnd(evidence, c.id, checks);
      CheckReasonsEnd(reasons, evidence, c.id, checks, stale, available);
    }

    /** The reasons one check adds. */
    method GateCheck(candidate: Id, check: Id, n: nat, stale: bool, before: seq<Reason>, available: Available) returns (reasons: seq<Reason>)
      requires n == LastCheck(evidence, candidate, check)
      ensures reasons == CheckReason(before, evidence, candidate, check, stale, available)
    {
      hide LastCheck;
      reasons := before;
      if n == 0 { return reasons + [CheckMissing(check)]; }
      var status := Effective(evidence[n - 1], stale, available);
      if status != Passed {
        reasons := reasons + [CheckNotPassed(check)];
        if status == Unavailable && ArtifactUnavailable !in reasons { reasons := reasons + [ArtifactUnavailable]; }
      }
    }

    method GateReview(c: Candidate, stale: bool, ids: seq<Id>, before: seq<Reason>, available: Available) returns (reasons: seq<Reason>)
      ensures reasons == ReviewReasons(before, evidence, c.id, ids, stale, available)
    {
      reasons := before;
      var n := FindLastReview(c.id);
      hide LastReview;
      if n == 0 { return reasons + [ReviewMissing]; }
      var status := Effective(evidence[n - 1], stale, available);
      if multiset(evidence[n - 1].input.cites) != multiset(ids) {
        status := Invalidated;
        reasons := reasons + [ReviewSetChanged];
      }
      if status != Passed {
        reasons := reasons + [ReviewNotPassed];
        if status == Unavailable && ArtifactUnavailable !in reasons { reasons := reasons + [ArtifactUnavailable]; }
      }
    }
  }

  predicate DistinctKeys(evidence: seq<Evidence>) {
    forall i, j :: 0 <= i < j < |evidence| ==> evidence[i].input.key != evidence[j].input.key
  }

  predicate Recorded(evidence: seq<Evidence>, key: Id) {
    exists k :: 0 <= k < |evidence| && evidence[k].input.key == key
  }

  /** Looking a key up finds its one piece of evidence. */
  lemma {:induction false} FoundKey(evidence: seq<Evidence>, key: Id)
    requires DistinctKeys(evidence)
    ensures FindKey(evidence, key).Some? <==> Recorded(evidence, key)
    ensures forall k :: 0 <= k < |evidence| && evidence[k].input.key == key ==> FindKey(evidence, key) == Some(evidence[k])
  {
    if evidence != [] {
      var rest := evidence[1..];
      FoundKey(rest, key);
      if Recorded(rest, key) {
        var k :| 0 <= k < |rest| && rest[k].input.key == key;
        assert evidence[k + 1] == rest[k];
      }
      forall k | 0 <= k < |evidence| && evidence[k].input.key == key ensures FindKey(evidence, key) == Some(evidence[k]) {
        if k > 0 { assert rest[k - 1] == evidence[k]; }
      }
    }
  }

  lemma Rebound(cs: seq<Candidate>, c: Candidate, reviewers: seq<Reviewer>, next: Candidate)
    requires CandidatesOk(cs) && c in cs && DistinctReviewers(reviewers) && Highest(cs, c.content.series) == c.revision
    requires next.content == c.content.(policy := c.content.policy.(reviewers := reviewers)) && next.revision == c.revision + 1
    requires forall d :: d in cs ==> d.id != next.id
    ensures CandidatesOk(cs + [next])
  {
    hide Highest;
    AppendCandidate(cs, next);
  }

  lemma AppendedIsNewest(cs: seq<Candidate>, c: Candidate)
    requires forall d :: d in cs && d.content.series == c.content.series ==> d.revision < c.revision
    ensures Newest(cs + [c], c.content.series) == Some(c)
  {
    var all := cs + [c];
    assert all[..|all| - 1] == cs;
  }

  lemma RequiredExactly(evidence: seq<Evidence>, c: Candidate, available: Available)
    ensures ChecksValid(evidence, c, c.content.policy.checks, available) <==> AllPassed(evidence, c, available)
    ensures forall id :: id in LatestIds(evidence, c.id, c.content.policy.checks) <==> IsLatest(evidence, c.id, c.content.policy.checks, id)
  {
    hide ChecksValid, AllPassed, LatestIds, IsLatest;
    PassedExactly(evidence, c, available);
    forall id { LatestMembers(evidence, c.id, c.content.policy.checks, id); }
  }

  lemma GateDecides(l: Ledger, c: Candidate, now: Context, available: Available)
    ensures CandidatesOk(l.candidates) && DistinctIds(l.evidence) && c in l.candidates ==>
              (GateReasons(l, c, now, available) == [] <==> MayPass(l, c, now, available))
    ensures CandidatesOk(l.candidates) && DistinctIds(l.evidence) && c in l.candidates ==>
              forall r :: r in GateReasons(l, c, now, available) <==> Given(l, c, now, available, r)
  {
    hide CandidatesOk, DistinctIds, GateReasons, MayPass, Given;
    if CandidatesOk(l.candidates) && DistinctIds(l.evidence) && c in l.candidates {
      PassesExactly(l, c, now, available);
      forall r { GateExactly(l, c, now, available, r); }
    }
  }

  lemma NoChecks(evidence: seq<Evidence>, c: Candidate, checks: seq<Check>, available: Available)
    requires checks == []
    ensures ChecksValid(evidence, c, checks, available)
  {
  }

  lemma LatestIdsNext(evidence: seq<Evidence>, candidate: Id, checks: seq<Check>, i: nat)
    requires i < |checks|
    ensures var n := LastCheck(evidence, candidate, checks[i].id);
            LatestIds(evidence, candidate, checks[i..]) ==
            (if n > 0 then [evidence[n - 1].id] else []) + LatestIds(evidence, candidate, checks[i + 1..])
  {
    hide LastCheck;
    assert checks[i..][1..] == checks[i + 1..];
  }

  lemma LatestIdsEnd(evidence: seq<Evidence>, candidate: Id, checks: seq<Check>)
    ensures LatestIds(evidence, candidate, checks[|checks|..]) == []
  {
  }

  lemma CheckReasonsNext(reasons: seq<Reason>, evidence: seq<Evidence>, candidate: Id, checks: seq<Check>, i: nat, stale: bool,
                         available: Available)
    requires i < |checks|
    ensures CheckReasons(reasons, evidence, candidate, checks[i..], stale, available) ==
            CheckReasons(CheckReason(reasons, evidence, candidate, checks[i].id, stale, available), evidence, candidate, checks[i + 1..],
                         stale, available)
  {
    hide CheckReason;
    assert checks[i..][1..] == checks[i + 1..];
  }

  lemma CheckReasonsEnd(reasons: seq<Reason>, evidence: seq<Evidence>, candidate: Id, checks: seq<Check>, stale: bool, available: Available)
    ensures CheckReasons(reasons, evidence, candidate, checks[|checks|..], stale, available) == reasons
  {
  }

  lemma OneMoreCheck(evidence: seq<Evidence>, c: Candidate, checks: seq<Check>, i: nat, available: Available)
    requires i < |checks|
    ensures ChecksValid(evidence, c, checks[..i + 1], available) <==>
            ChecksValid(evidence, c, checks[..i], available) &&
            var n := LastCheck(evidence, c.id, checks[i].id);
            n > 0 && evidence[n - 1].status == Passed && Readable(available, evidence[n - 1].log)
  {
    hide LastCheck, Readable;
    var some, all := checks[..i], checks[..i + 1];
    assert forall j :: 0 <= j < i ==> some[j] == all[j];
    assert all[i] == checks[i];
  }
}
