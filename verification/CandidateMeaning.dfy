/**
 What the candidate ledger decides, written out on its rows: the status every observation is recorded with, the reasons
 the gate gives, the revisions it appends; and that a review in order opens the gate.
 */
module CandidateMeaning {
  import opened Common
  import opened CandidateModel
  import opened CandidateGate

  // ---------------------------------------------------------------- the latest evidence

  /** Position `k` holds the last evidence of a check. */
  predicate LatestAt(evidence: seq<Evidence>, candidate: Id, check: Id, k: int) {
    && 0 <= k < |evidence|
    && evidence[k].input.CheckInput? && evidence[k].input.candidate == candidate && evidence[k].input.check == check
    && forall j :: k < j < |evidence| && evidence[j].input.CheckInput? && evidence[j].input.candidate == candidate ==>
         evidence[j].input.check != check
  }

  predicate LatestReviewAt(evidence: seq<Evidence>, candidate: Id, k: int) {
    && 0 <= k < |evidence| && evidence[k].input.ReviewInput? && evidence[k].input.candidate == candidate
    && forall j :: k < j < |evidence| && evidence[j].input.ReviewInput? ==> evidence[j].input.candidate != candidate
  }

  lemma LastExactly(evidence: seq<Evidence>, candidate: Id, check: Id)
    ensures forall k :: LatestAt(evidence, candidate, check, k) <==> k >= 0 && LastCheck(evidence, candidate, check) == k + 1
  {
    var n: int := LastCheck(evidence, candidate, check);
    if n > 0 { assert IsCheck(evidence[n - 1], candidate, check); }
    forall k ensures LatestAt(evidence, candidate, check, k) <==> k >= 0 && n == k + 1 {
      if LatestAt(evidence, candidate, check, k) {
        assert IsCheck(evidence[k], candidate, check);
      }
    }
  }

  lemma LastReviewExactly(evidence: seq<Evidence>, candidate: Id)
    ensures forall k :: LatestReviewAt(evidence, candidate, k) <==> k >= 0 && LastReview(evidence, candidate) == k + 1
  {
    var n: int := LastReview(evidence, candidate);
    if n > 0 { assert IsReview(evidence[n - 1], candidate); }
    forall k ensures LatestReviewAt(evidence, candidate, k) <==> k >= 0 && n == k + 1 {
      if LatestReviewAt(evidence, candidate, k) {
        assert IsReview(evidence[k], candidate);
      }
    }
  }

  /** Its latest evidence says passed and can be read. */
  ghost predicate HasPassed(evidence: seq<Evidence>, candidate: Id, check: Id, available: Available) {
    exists k :: 0 <= k < |evidence| && LatestAt(evidence, candidate, check, k) && evidence[k].status == Passed &&
                evidence[k].log.Some? && available(evidence[k].log.value)
  }

  ghost predicate AllPassed(evidence: seq<Evidence>, c: Candidate, available: Available) {
    forall check :: check in c.content.policy.checks ==> HasPassed(evidence, c.id, check.id, available)
  }

  lemma OnePassed(evidence: seq<Evidence>, candidate: Id, check: Id, available: Available)
    ensures var n := LastCheck(evidence, candidate, check);
            HasPassed(evidence, candidate, check, available) <==>
            n > 0 && evidence[n - 1].status == Passed && Readable(available, evidence[n - 1].log)
  {
    hide LastCheck, LatestAt;
    LastExactly(evidence, candidate, check);
    var n: int := LastCheck(evidence, candidate, check);
    if n > 0 { assert LatestAt(evidence, candidate, check, n - 1); }
  }

  lemma PassedExactly(evidence: seq<Evidence>, c: Candidate, available: Available)
    ensures ChecksValid(evidence, c, c.content.policy.checks, available) <==> AllPassed(evidence, c, available)
  {
    hide LastCheck, HasPassed, Readable;
    var checks := c.content.policy.checks;
    forall i | 0 <= i < |checks|
      ensures var n := LastCheck(evidence, c.id, checks[i].id);
              HasPassed(evidence, c.id, checks[i].id, available) <==>
              n > 0 && evidence[n - 1].status == Passed && Readable(available, evidence[n - 1].log)
    {
      OnePassed(evidence, c.id, checks[i].id, available);
    }
    if AllPassed(evidence, c, available) {
      forall i | 0 <= i < |checks| ensures HasPassed(evidence, c.id, checks[i].id, available) { assert checks[i] in checks; }
    }
  }

  // ---------------------------------------------------------------- what a review cites

  ghost predicate IsLatest(evidence: seq<Evidence>, candidate: Id, checks: seq<Check>, id: Id) {
    exists i, k :: 0 <= i < |checks| && 0 <= k < |evidence| && LatestAt(evidence, candidate, checks[i].id, k) && evidence[k].id == id
  }

  predicate NoRepeats(ids: seq<Id>) {
    forall i, j :: 0 <= i < j < |ids| ==> ids[i] != ids[j]
  }

  /** Exactly the latest evidence of every check of the policy that has any, each once. */
  ghost predicate CitesLatest(evidence: seq<Evidence>, c: Candidate, cites: seq<Id>) {
    NoRepeats(cites) && forall id :: id in cites <==> IsLatest(evidence, c.id, c.content.policy.checks, id)
  }

  lemma FirstIsLatest(evidence: seq<Evidence>, candidate: Id, checks: seq<Check>, id: Id)
    requires checks != []
    ensures var n := LastCheck(evidence, candidate, checks[0].id);
            IsLatest(evidence, candidate, checks, id) <==>
            (n > 0 && evidence[n - 1].id == id) || IsLatest(evidence, candidate, checks[1..], id)
  {
    hide LastCheck, LatestAt;
    var n: int := LastCheck(evidence, candidate, checks[0].id);
    LastExactly(evidence, candidate, checks[0].id);
    var rest := checks[1..];
    if IsLatest(evidence, candidate, rest, id) {
      var i, k :| 0 <= i < |rest| && 0 <= k < |evidence| && LatestAt(evidence, candidate, rest[i].id, k) && evidence[k].id == id;
      assert checks[i + 1] == rest[i];
    }
    if IsLatest(evidence, candidate, checks, id) {
      var i, k :| 0 <= i < |checks| && 0 <= k < |evidence| && LatestAt(evidence, candidate, checks[i].id, k) && evidence[k].id == id;
      if i > 0 { assert rest[i - 1] == checks[i]; }
    }
    if n > 0 { assert LatestAt(evidence, candidate, checks[0].id, n - 1); }
  }

  lemma {:induction false} LatestMembers(evidence: seq<Evidence>, candidate: Id, checks: seq<Check>, id: Id)
    ensures id in LatestIds(evidence, candidate, checks) <==> IsLatest(evidence, candidate, checks, id)
  {
    hide LastCheck, LatestAt;
    if checks != [] {
      FirstIsLatest(evidence, candidate, checks, id);
      hide IsLatest;
      LatestMembers(evidence, candidate, checks[1..], id);
    }
  }

  /** Evidence is the latest of one check at most. */
  lemma FirstIsOnly(evidence: seq<Evidence>, candidate: Id, checks: seq<Check>)
    requires checks != [] && DistinctIds(evidence) && forall i, j :: 0 <= i < j < |checks| ==> checks[i].id != checks[j].id
    ensures var n := LastCheck(evidence, candidate, checks[0].id);
            n > 0 ==> !IsLatest(evidence, candidate, checks[1..], evidence[n - 1].id)
  {
    hide LastCheck;
    var rest := checks[1..];
    var n: int := LastCheck(evidence, candidate, checks[0].id);
    forall i, k | 0 <= i < |rest| && 0 <= k < |evidence| && LatestAt(evidence, candidate, rest[i].id, k) ensures k != n - 1 {
      assert rest[i] == checks[i + 1];
    }
  }

  lemma {:induction false} LatestDistinct(evidence: seq<Evidence>, candidate: Id, checks: seq<Check>)
    requires DistinctIds(evidence) && forall i, j :: 0 <= i < j < |checks| ==> checks[i].id != checks[j].id
    ensures NoRepeats(LatestIds(evidence, candidate, checks))
  {
    hide LastCheck, IsLatest, DistinctIds;
    if checks != [] {
      var n: int := LastCheck(evidence, candidate, checks[0].id);
      FirstIsOnly(evidence, candidate, checks);
      LatestDistinct(evidence, candidate, checks[1..]);
      if n > 0 { LatestMembers(evidence, candidate, checks[1..], evidence[n - 1].id); }
    }
  }

  lemma {:induction false} CountOnce(ids: seq<Id>)
    requires NoRepeats(ids)
    ensures forall id :: multiset(ids)[id] == if id in ids then 1 else 0
  {
    if ids != [] {
      var rest := ids[..|ids| - 1];
      CountOnce(rest);
      assert ids == rest + [ids[|ids| - 1]];
    }
  }

  /** Citing the same identities the same number of times is citing exactly the latest evidence, each once. */
  lemma CitesExactly(evidence: seq<Evidence>, c: Candidate, cites: seq<Id>)
    requires DistinctIds(evidence) && Unambiguous(c.content.policy)
    ensures multiset(LatestIds(evidence, c.id, c.content.policy.checks)) == multiset(cites) <==> CitesLatest(evidence, c, cites)
  {
    var ids := LatestIds(evidence, c.id, c.content.policy.checks);
    LatestDistinct(evidence, c.id, c.content.policy.checks);
    hide LatestIds, IsLatest, DistinctIds, Unambiguous;
    forall id ensures id in ids <==> IsLatest(evidence, c.id, c.content.policy.checks, id) {
      LatestMembers(evidence, c.id, c.content.policy.checks, id);
    }
    SameOnce(ids, cites);
  }

  lemma SameOnce(ids: seq<Id>, cites: seq<Id>)
    requires NoRepeats(ids)
    ensures multiset(ids) == multiset(cites) <==> NoRepeats(cites) && forall id :: id in cites <==> id in ids
  {
    hide NoRepeats;
    CountOnce(ids);
    if multiset(ids) == multiset(cites) {
      assert forall id :: id in multiset(cites) <==> id in cites;
      assert forall id :: id in multiset(ids) <==> id in ids;
      OnceEach(cites);
    }
    if NoRepeats(cites) && forall id :: id in cites <==> id in ids {
      CountOnce(cites);
      assert forall id :: multiset(ids)[id] == multiset(cites)[id];
    }
  }

  lemma OnceEach(ids: seq<Id>)
    requires forall id :: multiset(ids)[id] <= 1
    ensures NoRepeats(ids)
  {
    forall i, j | 0 <= i < j < |ids| ensures ids[i] != ids[j] {
      assert ids == ids[..j] + [ids[j]] + ids[j + 1..];
      assert multiset(ids)[ids[j]] == multiset(ids[..j])[ids[j]] + 1 + multiset(ids[j + 1..])[ids[j]];
      assert ids[i] == ids[..j][i];
    }
  }

  // ---------------------------------------------------------------- what is recorded

  /** A check run as the candidate's policy names it. */
  predicate NamesCheck(c: Candidate, i: Input)
    requires i.CheckInput?
  {
    && i.policy == c.content.policy && i.input == c.content.input
    && Check(i.check, i.checkRevision, i.environment) in c.content.policy.checks
  }

  predicate NonEmpty(log: Option<Artifact>) {
    log.Some? && log.value.size != 0
  }

  lemma {:induction false} FindCheckExactly(checks: seq<Check>, check: Check)
    requires forall i, j :: 0 <= i < j < |checks| ==> checks[i].id != checks[j].id
    ensures check in checks <==> FindCheck(checks, check.id) == Some(check)
  {
    if checks != [] {
      FindCheckExactly(checks[1..], check);
      if check in checks[1..] { assert checks[0].id != check.id; }
    }
  }

  lemma {:induction false} FindReviewerExactly(reviewers: seq<Reviewer>, actor: Actor)
    requires DistinctReviewers(reviewers)
    ensures var r := FindReviewer(reviewers, actor);
            Reviewer(actor.profile, actor.revision, actor.family) in reviewers <==> r.Some? && r.value.family == actor.family
  {
    var r := Reviewer(actor.profile, actor.revision, actor.family);
    if reviewers != [] {
      FindReviewerExactly(reviewers[1..], actor);
      if r in reviewers[1..] {
        var i :| 0 < i < |reviewers| && reviewers[i] == r;
        assert reviewers[0].profile != reviewers[i].profile || reviewers[0].revision != reviewers[i].revision;
      }
    }
  }

  /** The status a check is recorded with, for every observation. */
  lemma CheckExactly(c: Candidate, i: Input, log: Option<Artifact>)
    requires i.CheckInput? && Unambiguous(c.content.policy)
    ensures var s := CheckStatus(c, i, log);
            && (s == Passed <==> NamesCheck(c, i) && i.outcome == Completed && i.exit == Some(0) && NonEmpty(log))
            && (s == Unavailable <==> NamesCheck(c, i) && i.outcome == Completed && i.exit == Some(0) && !NonEmpty(log))
            && (s == Failed <==> NamesCheck(c, i) && i.outcome == Completed && i.exit.Some? && i.exit.value != 0)
            && (s == Inconclusive <==> NamesCheck(c, i) && (i.outcome == NotCompleted || i.exit.None?))
            && (s == Invalidated <==> !NamesCheck(c, i))
  {
    FindCheckExactly(c.content.policy.checks, Check(i.check, i.checkRevision, i.environment));
    hide FindCheck;
  }

  /** A review of this candidate as it stands, citing the checks that passed. */
  ghost predicate NamesCandidate(evidence: seq<Evidence>, c: Candidate, i: Input, available: Available)
    requires i.ReviewInput?
  {
    && i.policy == c.content.policy && i.input == c.content.input && i.environment == c.content.policy.environment
    && i.reviewRevision == c.content.policy.reviewRevision
    && AllPassed(evidence, c, available) && CitesLatest(evidence, c, i.cites)
  }

  /** An approved reviewer who has nothing to do with any author. */
  predicate Outsider(c: Candidate, i: Input)
    requires i.ReviewInput?
  {
    && Reviewer(i.actor.profile, i.actor.revision, i.actor.family) in c.content.policy.reviewers && !i.reasoning
    && (forall a :: a in c.content.authors ==> a.attempt != i.actor.attempt && a.context != i.actor.context)
    && (c.content.task == T3 ==> i.actor.family.Some?)
    && (c.content.task == T3 ==> forall a :: a in c.content.authors ==> a.family.Some? && a.family != i.actor.family)
  }

  lemma OutsiderExactly(c: Candidate, i: Input)
    requires i.ReviewInput? && Unambiguous(c.content.policy)
    ensures Independent(c, i) && FamilyIndependent(c, i) <==> Outsider(c, i)
  {
    FindReviewerExactly(c.content.policy.reviewers, i.actor);
    hide FindReviewer;
    if Outsider(c, i) {
      assert forall k :: 0 <= k < |c.content.authors| ==> c.content.authors[k] in c.content.authors;
    }
  }

  /** The review counts at all: it speaks of the candidate, and its reviewer is an approved outsider. */
  ghost predicate Counts(evidence: seq<Evidence>, c: Candidate, i: Input, available: Available)
    requires i.ReviewInput?
  {
    NamesCandidate(evidence, c, i, available) && Outsider(c, i)
  }

  /** The status a review is recorded with, for every observation. */
  lemma ReviewExactly(evidence: seq<Evidence>, c: Candidate, i: Input, log: Option<Artifact>, available: Available)
    requires i.ReviewInput? && Unambiguous(c.content.policy) && DistinctIds(evidence)
    ensures var s := ReviewStatus(evidence, c, i, log, available);
            var counts := Counts(evidence, c, i, available);
            && (s == Passed <==> counts && !i.blocking && i.verdict == Passed && NonEmpty(log))
            && (s == Unavailable <==> counts && !i.blocking && i.verdict == Passed && !NonEmpty(log))
            && (s == Failed <==> counts && (i.blocking || i.verdict == Failed))
            && (s == Inconclusive <==> counts && !i.blocking && i.verdict == Inconclusive)
            && (s == Invalidated <==> !counts)
  {
    hide LatestIds, ChecksValid, AllPassed, CitesLatest, Independent, FamilyIndependent, Outsider;
    PassedExactly(evidence, c, available);
    CitesExactly(evidence, c, i.cites);
    OutsiderExactly(c, i);
  }

  // ---------------------------------------------------------------- candidates

  /** A policy is ambiguous if and only if it has fewer check names than checks, or fewer profiles than reviewers. */
  lemma AmbiguousExactly(p: Policy)
    ensures Unambiguous(p) <==>
            && |set check | check in p.checks :: check.id| == |p.checks|
            && |set r | r in p.reviewers :: (r.profile, r.revision)| == |p.reviewers|
  {
    var names := seq(|p.checks|, i requires 0 <= i < |p.checks| => p.checks[i].id);
    var profiles := seq(|p.reviewers|, i requires 0 <= i < |p.reviewers| => (p.reviewers[i].profile, p.reviewers[i].revision));
    AllDifferent(names);
    AllDifferent(profiles);
    assert (set check | check in p.checks :: check.id) == set x | x in names by {
      forall check | check in p.checks ensures check.id in names {
        var i :| 0 <= i < |p.checks| && p.checks[i] == check;
        assert names[i] == check.id;
      }
    }
    assert (set r | r in p.reviewers :: (r.profile, r.revision)) == set x | x in profiles by {
      forall r | r in p.reviewers ensures (r.profile, r.revision) in profiles {
        var i :| 0 <= i < |p.reviewers| && p.reviewers[i] == r;
        assert profiles[i] == (r.profile, r.revision);
      }
    }
    assert forall i :: 0 <= i < |names| ==> names[i] == p.checks[i].id;
    assert forall i :: 0 <= i < |profiles| ==> profiles[i] == (p.reviewers[i].profile, p.reviewers[i].revision);
  }

  /** No other candidate of its series has a higher revision. */
  predicate IsNewest(cs: seq<Candidate>, c: Candidate) {
    c in cs && forall d :: d in cs && d.content.series == c.content.series ==> d.revision <= c.revision
  }

  ghost predicate Repeats(cs: seq<Candidate>, content: Content) {
    exists c :: IsNewest(cs, c) && c.content == content
  }

  predicate Unused(cs: seq<Candidate>, id: Id) {
    forall c :: c in cs ==> c.id != id
  }

  /** One more than the highest of the series, from one. */
  predicate IsNext(cs: seq<Candidate>, series: Id, n: nat) {
    && (forall c :: c in cs && c.content.series == series ==> c.revision < n)
    && (n == 1 || exists c :: c in cs && c.content.series == series && c.revision == n - 1)
  }

  predicate Appended(a: Ledger, b: Ledger, id: Id, content: Content) {
    && |b.candidates| == |a.candidates| + 1 && b.evidence == a.evidence
    && b.candidates == a.candidates + [Candidate(id, b.candidates[|a.candidates|].revision, content)]
    && IsNext(a.candidates, content.series, b.candidates[|a.candidates|].revision)
  }

  lemma NewestExactly(cs: seq<Candidate>, series: Id, content: Content)
    requires CandidatesOk(cs) && content.series == series
    ensures Repeats(cs, content) <==> Newest(cs, series).Some? && Newest(cs, series).value.content == content
  {
    hide Newest;
    var r := Newest(cs, series);
    if Repeats(cs, content) {
      var c :| IsNewest(cs, c) && c.content == content;
      assert r.value.revision == c.revision;
      OneRevision(cs, r.value, c);
    }
    if r.Some? { assert IsNewest(cs, r.value); }
  }

  lemma NextAfterNewest(cs: seq<Candidate>, series: Id)
    ensures var newest := Newest(cs, series);
            IsNext(cs, series, (if newest.Some? then newest.value.revision else 0) + 1)
  {
    hide Newest;
  }

  lemma OneRevision(cs: seq<Candidate>, c: Candidate, d: Candidate)
    requires CandidatesOk(cs) && c in cs && d in cs && c.content.series == d.content.series && c.revision == d.revision
    ensures c == d
  {
    var i :| 0 <= i < |cs| && cs[i] == c;
    var j :| 0 <= j < |cs| && cs[j] == d;
  }

  /**
   A freeze succeeds if and only if the policy is unambiguous and its content is the newest of the series already, or
   its identity is new; it then appends the next revision, or nothing.
   */
  lemma FreezeExactly(l: Ledger, content: Content, id: Id)
    requires CandidatesOk(l.candidates)
    ensures var r := Freeze(l, content, id);
            && (r == Err(PolicyAmbiguous) <==> !Unambiguous(content.policy))
            && (r.Ok? <==> Unambiguous(content.policy) && (Repeats(l.candidates, content) || Unused(l.candidates, id)))
            && (r.Ok? && Repeats(l.candidates, content) ==> r.ledger == l)
            && (r.Ok? && !Repeats(l.candidates, content) ==> Appended(l, r.ledger, id, content))
  {
    NewestExactly(l.candidates, content.series, content);
    NextAfterNewest(l.candidates, content.series);
    hide Newest, Find, CandidatesOk, Repeats, Unambiguous, IsNext;
    var r := Freeze(l, content, id);
    if r.Ok? && !Repeats(l.candidates, content) {
      var newest := Newest(l.candidates, content.series);
      var n := (if newest.Some? then newest.value.revision else 0) + 1;
      assert r.ledger.candidates == l.candidates + [Candidate(id, n, content)];
    }
  }

  /** Reviewers are rebound if and only if they are unambiguous, the source is the newest of its series and the identity new. */
  lemma RebindExactly(l: Ledger, source: Id, reviewers: seq<Reviewer>, id: Id)
    requires CandidatesOk(l.candidates)
    ensures var r := Rebind(l, source, reviewers, id);
            && (r.Ok? <==>
                  && DistinctReviewers(reviewers) && Unused(l.candidates, id)
                  && exists c :: IsNewest(l.candidates, c) && c.id == source)
            && (forall c :: r.Ok? && c in l.candidates && c.id == source ==>
                  Appended(l, r.ledger, id, c.content.(policy := c.content.policy.(reviewers := reviewers))))
  {
    hide Find, Highest;
    var r := Rebind(l, source, reviewers, id);
    var found := Find(l.candidates, source);
    forall c | c in l.candidates && c.id == source ensures found == Some(c) { OneIdentity(l.candidates, source, c); }
    hide CandidatesOk, DistinctReviewers;
    if found.Some? {
      NewestIsHighest(l.candidates, found.value);
      if r.Ok? {
        var content := found.value.content.(policy := found.value.content.policy.(reviewers := reviewers));
        assert r.ledger.candidates == l.candidates + [Candidate(id, found.value.revision + 1, content)];
      }
    }
  }

  lemma OneIdentity(cs: seq<Candidate>, id: Id, c: Candidate)
    requires CandidatesOk(cs) && c in cs && c.id == id
    ensures Find(cs, id) == Some(c)
  {
    hide Find;
    var f := Find(cs, id).value;
    var i :| 0 <= i < |cs| && cs[i] == c;
    var j :| 0 <= j < |cs| && cs[j] == f;
  }

  lemma NewestIsHighest(cs: seq<Candidate>, c: Candidate)
    requires c in cs
    ensures IsNewest(cs, c) <==> Highest(cs, c.content.series) == c.revision
  {
    hide Highest;
  }

  // ---------------------------------------------------------------- the gate

  /** Passed, readable and not out of date. */
  predicate Stands(e: Evidence, stale: bool, available: Available) {
    e.status == Passed && e.log.Some? && available(e.log.value) && !stale
  }

  /** Its log cannot be read, or was never there. */
  predicate Gone(e: Evidence, stale: bool, available: Available) {
    e.log.None? || !available(e.log.value) || (e.status == Unavailable && !stale)
  }

  predicate OutOfContext(c: Candidate, now: Context) {
    now.repository != c.content.repository || now.base != c.content.base || now.input != c.content.input || now.policy != c.content.policy
  }

  /** The latest evidence of a check is of this kind. */
  ghost predicate LatestIs(evidence: seq<Evidence>, candidate: Id, check: Id, p: Evidence -> bool) {
    exists k :: 0 <= k < |evidence| && LatestAt(evidence, candidate, check, k) && p(evidence[k])
  }

  ghost predicate LatestReviewIs(evidence: seq<Evidence>, candidate: Id, p: Evidence -> bool) {
    exists k :: 0 <= k < |evidence| && LatestReviewAt(evidence, candidate, k) && p(evidence[k])
  }

  ghost predicate CitesOther(evidence: seq<Evidence>, c: Candidate, e: Evidence) {
    e.input.ReviewInput? && !CitesLatest(evidence, c, e.input.cites)
  }

  lemma LatestIsLast(evidence: seq<Evidence>, candidate: Id, check: Id, p: Evidence -> bool)
    ensures var n := LastCheck(evidence, candidate, check);
            LatestIs(evidence, candidate, check, p) <==> n > 0 && p(evidence[n - 1])
  {
    hide LastCheck, LatestAt;
    LastExactly(evidence, candidate, check);
    var n: int := LastCheck(evidence, candidate, check);
    if n > 0 { assert LatestAt(evidence, candidate, check, n - 1); }
  }

  lemma LatestReviewIsLast(evidence: seq<Evidence>, candidate: Id, p: Evidence -> bool)
    ensures var n := LastReview(evidence, candidate);
            LatestReviewIs(evidence, candidate, p) <==> n > 0 && p(evidence[n - 1])
  {
    hide LastReview, LatestReviewAt;
    LastReviewExactly(evidence, candidate);
    var n: int := LastReview(evidence, candidate);
    if n > 0 { assert LatestReviewAt(evidence, candidate, n - 1); }
  }

  /** What one check adds to the reasons. */
  ghost predicate CheckGives(evidence: seq<Evidence>, candidate: Id, check: Id, stale: bool, available: Available, r: Reason) {
    || (r == CheckMissing(check) && !LatestIs(evidence, candidate, check, _ => true))
    || (r == CheckNotPassed(check) && LatestIs(evidence, candidate, check, e => !Stands(e, stale, available)))
    || (r == ArtifactUnavailable && LatestIs(evidence, candidate, check, e => Gone(e, stale, available)))
  }

  ghost predicate SomeCheckGives(evidence: seq<Evidence>, candidate: Id, checks: seq<Check>, stale: bool, available: Available, r: Reason) {
    exists check :: check in checks && CheckGives(evidence, candidate, check.id, stale, available, r)
  }

  lemma OneCheckGives(reasons: seq<Reason>, evidence: seq<Evidence>, candidate: Id, check: Id, stale: bool, available: Available, r: Reason)
    ensures r in CheckReason(reasons, evidence, candidate, check, stale, available) <==>
            r in reasons || CheckGives(evidence, candidate, check, stale, available, r)
  {
    hide LastCheck, LatestIs;
    LatestIsLast(evidence, candidate, check, _ => true);
    LatestIsLast(evidence, candidate, check, e => !Stands(e, stale, available));
    LatestIsLast(evidence, candidate, check, e => Gone(e, stale, available));
  }

  lemma {:induction false} ChecksGive(reasons: seq<Reason>, evidence: seq<Evidence>, candidate: Id, checks: seq<Check>, stale: bool,
                                      available: Available, r: Reason)
    ensures r in CheckReasons(reasons, evidence, candidate, checks, stale, available) <==>
            r in reasons || SomeCheckGives(evidence, candidate, checks, stale, available, r)
    decreases |checks|
  {
    hide CheckReason, CheckGives;
    if checks != [] {
      OneCheckGives(reasons, evidence, candidate, checks[0].id, stale, available, r);
      ChecksGive(CheckReason(reasons, evidence, candidate, checks[0].id, stale, available), evidence, candidate, checks[1..], stale, available, r);
    }
  }

  /** What the latest review adds. */
  ghost predicate ReviewGives(evidence: seq<Evidence>, c: Candidate, stale: bool, available: Available, r: Reason) {
    || (r == ReviewMissing && !LatestReviewIs(evidence, c.id, _ => true))
    || (r == ReviewSetChanged && LatestReviewIs(evidence, c.id, e => CitesOther(evidence, c, e)))
    || (r == ReviewNotPassed && LatestReviewIs(evidence, c.id, e => CitesOther(evidence, c, e) || !Stands(e, stale, available)))
    || (r == ArtifactUnavailable && LatestReviewIs(evidence, c.id, e => !CitesOther(evidence, c, e) && Gone(e, stale, available)))
  }

  lemma OneReviewGives(reasons: seq<Reason>, evidence: seq<Evidence>, c: Candidate, stale: bool, available: Available, r: Reason)
    requires DistinctIds(evidence) && Unambiguous(c.content.policy)
    ensures r in ReviewReasons(reasons, evidence, c.id, LatestIds(evidence, c.id, c.content.policy.checks), stale, available) <==>
            r in reasons || ReviewGives(evidence, c, stale, available, r)
  {
    hide LastReview, LatestReviewIs, CitesLatest, LatestIds, DistinctIds, Unambiguous;
    LatestReviewIsLast(evidence, c.id, _ => true);
    LatestReviewIsLast(evidence, c.id, e => CitesOther(evidence, c, e));
    LatestReviewIsLast(evidence, c.id, e => CitesOther(evidence, c, e) || !Stands(e, stale, available));
    LatestReviewIsLast(evidence, c.id, e => !CitesOther(evidence, c, e) && Gone(e, stale, available));
    var n: int := LastReview(evidence, c.id);
    if n > 0 { CitesExactly(evidence, c, evidence[n - 1].input.cites); }
  }

  /** When each reason is given: for the candidate itself, for a check of its policy, or for its review. */
  ghost predicate Given(l: Ledger, c: Candidate, now: Context, available: Available, r: Reason) {
    var stale := OutOfContext(c, now) || !IsNewest(l.candidates, c);
    || (r == ContextChanged && OutOfContext(c, now))
    || (r == Superseded && !IsNewest(l.candidates, c))
    || (r == ArtifactUnavailable && exists a :: a in c.content.manifest && !available(a))
    || SomeCheckGives(l.evidence, c.id, c.content.policy.checks, stale, available, r)
    || ReviewGives(l.evidence, c, stale, available, r)
  }

  lemma GateExactly(l: Ledger, c: Candidate, now: Context, available: Available, r: Reason)
    requires CandidatesOk(l.candidates) && DistinctIds(l.evidence) && c in l.candidates
    ensures r in GateReasons(l, c, now, available) <==> Given(l, c, now, available, r)
  {
    assert Unambiguous(c.content.policy);
    hide CandidatesOk, DistinctIds, Unambiguous, CheckReasons, ReviewReasons, LatestIds, SomeCheckGives, ReviewGives, Highest, IsNewest, AllAvailable,
      First, SameContext, OutOfContext;
    ContextExactly(c, now);
    NewestIsHighest(l.candidates, c);
    AvailableExactly(available, c.content.manifest);
    var changed := !SameContext(c, now);
    var superseded := Highest(l.candidates, c.content.series) != c.revision;
    var missing := !AllAvailable(available, c.content.manifest);
    var first := First(changed, superseded, missing);
    FirstGives(changed, superseded, missing, r);
    var stale := changed || superseded;
    ChecksGive(first, l.evidence, c.id, c.content.policy.checks, stale, available, r);
    var checked := CheckReasons(first, l.evidence, c.id, c.content.policy.checks, stale, available);
    OneReviewGives(checked, l.evidence, c, stale, available, r);
  }

  lemma FirstGives(changed: bool, superseded: bool, missing: bool, r: Reason)
    ensures r in First(changed, superseded, missing) <==>
            (r == ContextChanged && changed) || (r == Superseded && superseded) || (r == ArtifactUnavailable && missing)
  {
  }

  lemma ContextExactly(c: Candidate, now: Context)
    ensures SameContext(c, now) <==> !OutOfContext(c, now)
  {
  }

  lemma AvailableExactly(available: Available, manifest: seq<Artifact>)
    ensures AllAvailable(available, manifest) <==> forall a :: a in manifest ==> available(a)
  {
    assert forall i :: 0 <= i < |manifest| ==> manifest[i] in manifest;
  }

  /** The gate passes exactly such a candidate. */
  ghost predicate MayPass(l: Ledger, c: Candidate, now: Context, available: Available) {
    && !OutOfContext(c, now) && IsNewest(l.candidates, c) && (forall a :: a in c.content.manifest ==> available(a))
    && AllPassed(l.evidence, c, available)
    && LatestReviewIs(l.evidence, c.id, e => !CitesOther(l.evidence, c, e) && Stands(e, false, available))
  }

  lemma PassesExactly(l: Ledger, c: Candidate, now: Context, available: Available)
    requires CandidatesOk(l.candidates) && DistinctIds(l.evidence) && c in l.candidates
    ensures GateReasons(l, c, now, available) == [] <==> MayPass(l, c, now, available)
  {
    assert Unambiguous(c.content.policy);
    hide CandidatesOk, DistinctIds, Unambiguous, ChecksValid, AllPassed, LatestIds, Highest, GateReasons, LastReview, IsNewest,
      AllAvailable, LatestReviewIs, CitesOther, Stands;
    GateMeans(l, c, now, available);
    NewestIsHighest(l.candidates, c);
    AvailableExactly(available, c.content.manifest);
    PassedExactly(l.evidence, c, available);
    LastReviewStands(l.evidence, c, available);
  }

  lemma LastReviewStands(evidence: seq<Evidence>, c: Candidate, available: Available)
    requires DistinctIds(evidence) && Unambiguous(c.content.policy)
    ensures var n := LastReview(evidence, c.id);
            LatestReviewIs(evidence, c.id, e => !CitesOther(evidence, c, e) && Stands(e, false, available)) <==>
            n > 0 && evidence[n - 1].status == Passed && Readable(available, evidence[n - 1].log) &&
            multiset(evidence[n - 1].input.cites) == multiset(LatestIds(evidence, c.id, c.content.policy.checks))
  {
    hide DistinctIds, Unambiguous, CitesLatest, LatestIds, LastReview, LatestReviewIs;
    LatestReviewIsLast(evidence, c.id, e => !CitesOther(evidence, c, e) && Stands(e, false, available));
    var n: int := LastReview(evidence, c.id);
    if n > 0 { CitesExactly(evidence, c, evidence[n - 1].input.cites); }
  }

  // ---------------------------------------------------------------- a review in order opens the gate

  /** The last evidence of a check stays the last when a review is appended. */
  lemma ReviewKeepsChecks(evidence: seq<Evidence>, e: Evidence, candidate: Id, check: Id)
    requires e.input.ReviewInput?
    ensures LastCheck(evidence + [e], candidate, check) == LastCheck(evidence, candidate, check)
  {
    assert (evidence + [e])[..|evidence|] == evidence;
  }

  lemma {:induction false} ReviewKeepsIds(evidence: seq<Evidence>, e: Evidence, candidate: Id, checks: seq<Check>)
    requires e.input.ReviewInput?
    ensures LatestIds(evidence + [e], candidate, checks) == LatestIds(evidence, candidate, checks)
  {
    hide LastCheck;
    if checks != [] {
      ReviewKeepsChecks(evidence, e, candidate, checks[0].id);
      ReviewKeepsIds(evidence, e, candidate, checks[1..]);
    }
  }

  lemma ReviewKeepsValid(evidence: seq<Evidence>, e: Evidence, c: Candidate, checks: seq<Check>, available: Available)
    requires e.input.ReviewInput?
    ensures ChecksValid(evidence + [e], c, checks, available) <==> ChecksValid(evidence, c, checks, available)
  {
    hide LastCheck, Readable;
    forall i | 0 <= i < |checks| ensures LastCheck(evidence + [e], c.id, checks[i].id) == LastCheck(evidence, c.id, checks[i].id) {
      ReviewKeepsChecks(evidence, e, c.id, checks[i].id);
    }
  }

  /**
   In every reachable ledger: a review of the newest candidate that counts, passes, blocks nothing and has a log, judged
   and stored under a new key and identity, opens the gate wherever the candidate's files and the logs can be read.
   */
  lemma ReviewOpensGate(steps: seq<Step>, caller: nat, c: Candidate, i: Input, log: Option<Artifact>, id: Id, available: Available)
    requires i.ReviewInput? && i.candidate == c.id
    requires var l := Run(Empty, steps).ledger;
             && IsNewest(l.candidates, c) && Counts(l.evidence, c, i, available)
             && (forall e :: e in l.evidence ==> e.input.key != i.key && e.id != id)
    requires i.verdict == Passed && !i.blocking && NonEmpty(log) && available(log.value)
    requires forall a :: a in c.content.manifest ==> available(a)
    ensures var w := Next(Next(Run(Empty, steps), JudgeStep(caller, i, log, id, available)), StoreStep(caller));
            var now := Context(c.content.repository, c.content.base, c.content.input, c.content.policy);
            GateReasons(w.ledger, c, now, available) == []
  {
    var w := Run(Empty, steps);
    var l := w.ledger;
    Reached(steps);
    CandidatePart(w);
    OneIdentity(l.candidates, c.id, c);
    assert Unambiguous(c.content.policy);
    ReviewExactly(l.evidence, c, i, log, available);
    var e := Evidence(id, i, Passed, log);
    Stored(w, caller, c, i, log, id, available);
    OpensFor(l, c, e, available);
  }

  lemma Stored(w: World, caller: nat, c: Candidate, i: Input, log: Option<Artifact>, id: Id, available: Available)
    requires i.ReviewInput? && Find(w.ledger.candidates, i.candidate) == Some(c)
    requires ReviewStatus(w.ledger.evidence, c, i, log, available) == Passed
    requires forall e :: e in w.ledger.evidence ==> e.input.key != i.key && e.id != id
    ensures Next(Next(w, JudgeStep(caller, i, log, id, available)), StoreStep(caller)).ledger ==
            w.ledger.(evidence := w.ledger.evidence + [Evidence(id, i, Passed, log)])
  {
    hide ReviewStatus, Find;
    NoKey(w.ledger.evidence, i.key);
  }

  lemma {:induction false} NoKey(evidence: seq<Evidence>, key: Id)
    requires forall e :: e in evidence ==> e.input.key != key
    ensures FindKey(evidence, key).None?
  {
    if evidence != [] { NoKey(evidence[1..], key); }
  }

  lemma OpensFor(l: Ledger, c: Candidate, e: Evidence, available: Available)
    requires CandidatesOk(l.candidates) && DistinctIds(l.evidence) && IsNewest(l.candidates, c)
    requires e.input.ReviewInput? && e.input.candidate == c.id && e.status == Passed && e.log.Some? && available(e.log.value)
    requires AllPassed(l.evidence, c, available) && CitesLatest(l.evidence, c, e.input.cites)
    requires forall a :: a in c.content.manifest ==> available(a)
    ensures GateReasons(l.(evidence := l.evidence + [e]), c,
                        Context(c.content.repository, c.content.base, c.content.input, c.content.policy), available) == []
  {
    assert Unambiguous(c.content.policy);
    hide CandidatesOk, DistinctIds, Unambiguous, CitesLatest, ChecksValid, AllPassed, LatestIds, Highest, GateReasons;
    var after := l.(evidence := l.evidence + [e]);
    GateMeans(after, c, Context(c.content.repository, c.content.base, c.content.input, c.content.policy), available);
    NewestIsHighest(l.candidates, c);
    PassedExactly(l.evidence, c, available);
    CitesExactly(l.evidence, c, e.input.cites);
    ReviewKeepsValid(l.evidence, e, c, c.content.policy.checks, available);
    ReviewKeepsIds(l.evidence, e, c.id, c.content.policy.checks);
    assert LastReview(after.evidence, c.id) == |after.evidence|;
  }
}
