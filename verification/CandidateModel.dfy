/**
 The candidate ledger: frozen candidates and the evidence recorded about them, both append-only, and the local gate.

 Digests are compared by what they digest; which artifacts can be read is up to the environment at every look.
 */
module CandidateModel {
  import opened Common

  type Id = string

  datatype Actor = Actor(attempt: Id, profile: Id, revision: nat, family: Option<Id>, context: Id)
  datatype Check = Check(id: Id, revision: nat, environment: Id)
  datatype Reviewer = Reviewer(profile: Id, revision: nat, family: Option<Id>)
  datatype Policy = Policy(checks: seq<Check>, reviewRevision: nat, environment: Id, reviewers: seq<Reviewer>)
  datatype TaskClass = T1 | T2 | T3

  datatype Artifact = Artifact(sha: Id, size: nat)

  /** What a freeze is asked for and finds. */
  datatype Content = Content(
    series: Id, repository: Id, base: Id, tree: Id, input: Id, policy: Policy, task: TaskClass, authors: seq<Actor>,
    manifest: seq<Artifact>)

  datatype Candidate = Candidate(id: Id, revision: nat, content: Content)

  datatype Outcome = Completed | NotCompleted
  datatype Status = Passed | Failed | Inconclusive | Unavailable | Invalidated

  /** What a reviewer may answer. */
  type Verdict = s: Status | s == Passed || s == Failed || s == Inconclusive witness Failed

  datatype Input =
    | CheckInput(key: Id, candidate: Id, policy: Policy, input: Id, environment: Id,
                 check: Id, checkRevision: nat, exit: Option<int>, outcome: Outcome)
    | ReviewInput(key: Id, candidate: Id, policy: Policy, input: Id, environment: Id,
                  reviewRevision: nat, cites: seq<Id>, actor: Actor, reasoning: bool, verdict: Verdict, blocking: bool)

  datatype Evidence = Evidence(id: Id, input: Input, status: Status, log: Option<Artifact>)

  datatype Ledger = Ledger(candidates: seq<Candidate>, evidence: seq<Evidence>)

  /** Which artifacts can be read back unchanged now. */
  type Available = Artifact -> bool

  predicate Readable(available: Available, log: Option<Artifact>) {
    log.Some? && available(log.value)
  }

  // ---------------------------------------------------------------- candidates

  function Find(candidates: seq<Candidate>, id: Id): (r: Option<Candidate>)
    ensures r.Some? ==> r.value in candidates && r.value.id == id
    ensures r.None? ==> forall c :: c in candidates ==> c.id != id
  {
    if candidates == [] then None
    else if candidates[0].id == id then Some(candidates[0])
    else Find(candidates[1..], id)
  }

  /** The highest revision of a series; zero when it has none. */
  function Highest(candidates: seq<Candidate>, series: Id): (n: nat)
    ensures forall c :: c in candidates && c.content.series == series ==> c.revision <= n
    ensures n > 0 ==> exists c :: c in candidates && c.content.series == series && c.revision == n
  {
    if candidates == [] then 0
    else
      var n := Highest(candidates[..|candidates| - 1], series);
      var c := candidates[|candidates| - 1];
      assert forall d :: d in candidates <==> d in candidates[..|candidates| - 1] || d == c;
      if c.content.series == series && c.revision > n then c.revision else n
  }

  /** The candidate of a series with the highest revision. */
  function Newest(candidates: seq<Candidate>, series: Id): (r: Option<Candidate>)
    ensures r.Some? ==> r.value in candidates && r.value.content.series == series
    ensures forall c :: c in candidates && c.content.series == series ==> r.Some? && c.revision <= r.value.revision
  {
    if candidates == [] then None
    else
      var r := Newest(candidates[..|candidates| - 1], series);
      var c := candidates[|candidates| - 1];
      assert forall d :: d in candidates <==> d in candidates[..|candidates| - 1] || d == c;
      if c.content.series == series && (r.None? || c.revision > r.value.revision) then Some(c) else r
  }

  predicate DistinctReviewers(reviewers: seq<Reviewer>) {
    forall i, j :: 0 <= i < j < |reviewers| ==>
      reviewers[i].profile != reviewers[j].profile || reviewers[i].revision != reviewers[j].revision
  }

  /** No check is named twice, and no profile is approved twice in one revision. */
  predicate Unambiguous(policy: Policy) {
    && (forall i, j :: 0 <= i < j < |policy.checks| ==> policy.checks[i].id != policy.checks[j].id)
    && DistinctReviewers(policy.reviewers)
  }

  datatype Error = PolicyAmbiguous | CandidateNotFound | CandidateSuperseded | KeyConflict | IdentityTaken
  datatype Saved = Ok(ledger: Ledger) | Err(error: Error)

  /** Freezes the next revision of a series; an exact repetition of the newest one changes nothing. */
  function Freeze(l: Ledger, content: Content, id: Id): Saved {
    var newest := Newest(l.candidates, content.series);
    if !Unambiguous(content.policy) then Err(PolicyAmbiguous)
    else if newest.Some? && newest.value.content == content then Ok(l)
    else if Find(l.candidates, id).Some? then Err(IdentityTaken)
    else
      var revision := (if newest.Some? then newest.value.revision else 0) + 1;
      Ok(l.(candidates := l.candidates + [Candidate(id, revision, content)]))
  }

  /** Appends a revision with the same content and another set of reviewers. */
  function Rebind(l: Ledger, source: Id, reviewers: seq<Reviewer>, id: Id): Saved {
    var c := Find(l.candidates, source);
    if !DistinctReviewers(reviewers) then Err(PolicyAmbiguous)
    else if c.None? then Err(CandidateNotFound)
    else if Highest(l.candidates, c.value.content.series) != c.value.revision then Err(CandidateSuperseded)
    else if Find(l.candidates, id).Some? then Err(IdentityTaken)
    else
      var content := c.value.content.(policy := c.value.content.policy.(reviewers := reviewers));
      Ok(l.(candidates := l.candidates + [Candidate(id, c.value.revision + 1, content)]))
  }

  // ---------------------------------------------------------------- evidence

  predicate IsCheck(e: Evidence, candidate: Id, check: Id) {
    e.input.CheckInput? && e.input.candidate == candidate && e.input.check == check
  }

  predicate IsReview(e: Evidence, candidate: Id) {
    e.input.ReviewInput? && e.input.candidate == candidate
  }

  /** The position of the last check evidence, counted from one; zero when there is none. */
  function LastCheck(evidence: seq<Evidence>, candidate: Id, check: Id): (n: nat)
    ensures n <= |evidence| && (n > 0 ==> IsCheck(evidence[n - 1], candidate, check))
    ensures forall i :: n <= i < |evidence| ==> !IsCheck(evidence[i], candidate, check)
  {
    if evidence == [] then 0
    else if IsCheck(evidence[|evidence| - 1], candidate, check) then |evidence|
    else LastCheck(evidence[..|evidence| - 1], candidate, check)
  }

  function LastReview(evidence: seq<Evidence>, candidate: Id): (n: nat)
    ensures n <= |evidence| && (n > 0 ==> IsReview(evidence[n - 1], candidate))
    ensures forall i :: n <= i < |evidence| ==> !IsReview(evidence[i], candidate)
  {
    if evidence == [] then 0
    else if IsReview(evidence[|evidence| - 1], candidate) then |evidence|
    else LastReview(evidence[..|evidence| - 1], candidate)
  }

  /** The identities of the last evidence of each check that has any. */
  function LatestIds(evidence: seq<Evidence>, candidate: Id, checks: seq<Check>): seq<Id> {
    if checks == [] then []
    else
      var n := LastCheck(evidence, candidate, checks[0].id);
      (if n > 0 then [evidence[n - 1].id] else []) + LatestIds(evidence, candidate, checks[1..])
  }

  function FindCheck(checks: seq<Check>, id: Id): (r: Option<Check>)
    ensures r.Some? ==> r.value in checks && r.value.id == id
  {
    if checks == [] then None else if checks[0].id == id then Some(checks[0]) else FindCheck(checks[1..], id)
  }

  function FindReviewer(reviewers: seq<Reviewer>, actor: Actor): (r: Option<Reviewer>)
    ensures r.Some? ==> r.value in reviewers && r.value.profile == actor.profile && r.value.revision == actor.revision
  {
    if reviewers == [] then None
    else if reviewers[0].profile == actor.profile && reviewers[0].revision == actor.revision then Some(reviewers[0])
    else FindReviewer(reviewers[1..], actor)
  }

  predicate CheckBound(c: Candidate, i: Input)
    requires i.CheckInput?
  {
    var expected := FindCheck(c.content.policy.checks, i.check);
    && i.policy == c.content.policy && i.input == c.content.input
    && expected.Some? && expected.value.revision == i.checkRevision && expected.value.environment == i.environment
  }

  predicate Logged(log: Option<Artifact>) {
    log.Some? && log.value.size > 0
  }

  /** The status a check observation is recorded with. */
  function CheckStatus(c: Candidate, i: Input, log: Option<Artifact>): Status
    requires i.CheckInput?
  {
    if !CheckBound(c, i) then Invalidated
    else if i.outcome != Completed || i.exit.None? then Inconclusive
    else if i.exit.value != 0 then Failed
    else if !Logged(log) then Unavailable
    else Passed
  }

  predicate ChecksValid(evidence: seq<Evidence>, c: Candidate, checks: seq<Check>, available: Available) {
    forall i :: 0 <= i < |checks| ==>
      var n := LastCheck(evidence, c.id, checks[i].id);
      n > 0 && evidence[n - 1].status == Passed && Readable(available, evidence[n - 1].log)
  }

  predicate ReviewBound(evidence: seq<Evidence>, c: Candidate, i: Input, available: Available)
    requires i.ReviewInput?
  {
    var policy := c.content.policy;
    && i.policy == policy && i.input == c.content.input && i.environment == policy.environment
    && i.reviewRevision == policy.reviewRevision && ChecksValid(evidence, c, policy.checks, available)
    && multiset(LatestIds(evidence, c.id, policy.checks)) == multiset(i.cites)
  }

  /** Approved under the policy, and sharing neither attempt nor context with an author. */
  predicate Independent(c: Candidate, i: Input)
    requires i.ReviewInput?
  {
    var approved := FindReviewer(c.content.policy.reviewers, i.actor);
    && approved.Some? && approved.value.family == i.actor.family && !i.reasoning
    && forall k :: 0 <= k < |c.content.authors| ==>
         c.content.authors[k].attempt != i.actor.attempt && c.content.authors[k].context != i.actor.context
  }

  /** For the highest task class the reviewer's model family is known and is no author's. */
  predicate FamilyIndependent(c: Candidate, i: Input)
    requires i.ReviewInput?
  {
    c.content.task == T3 ==>
      && i.actor.family.Some?
      && forall k :: 0 <= k < |c.content.authors| ==>
           c.content.authors[k].family.Some? && c.content.authors[k].family != i.actor.family
  }

  function ReviewStatus(evidence: seq<Evidence>, c: Candidate, i: Input, log: Option<Artifact>, available: Available): Status
    requires i.ReviewInput?
  {
    if !ReviewBound(evidence, c, i, available) || !Independent(c, i) || !FamilyIndependent(c, i) then Invalidated
    else if i.blocking then Failed
    else if !Logged(log) && i.verdict == Passed then Unavailable
    else i.verdict
  }

  function FindKey(evidence: seq<Evidence>, key: Id): (r: Option<Evidence>)
    ensures r.None? ==> forall e :: e in evidence ==> e.input.key != key
  {
    if evidence == [] then None else if evidence[0].input.key == key then Some(evidence[0]) else FindKey(evidence[1..], key)
  }

  /** Appends evidence once per key. */
  function Save(l: Ledger, e: Evidence): Saved {
    var previous := FindKey(l.evidence, e.input.key);
    if previous.Some? then if previous.value.input != e.input || previous.value.log != e.log then Err(KeyConflict) else Ok(l)
    else if exists k :: 0 <= k < |l.evidence| && l.evidence[k].id == e.id then Err(IdentityTaken)
    else Ok(l.(evidence := l.evidence + [e]))
  }

  // ---------------------------------------------------------------- the gate

  datatype Context = Context(repository: Id, base: Id, input: Id, policy: Policy)

  predicate SameContext(c: Candidate, now: Context) {
    now == Context(c.content.repository, c.content.base, c.content.input, c.content.policy)
  }

  predicate AllAvailable(available: Available, manifest: seq<Artifact>) {
    forall i :: 0 <= i < |manifest| ==> available(manifest[i])
  }

  datatype Reason =
    | ContextChanged | Superseded | ArtifactUnavailable | CheckMissing(check: Id) | CheckNotPassed(check: Id)
    | ReviewSetChanged | ReviewMissing | ReviewNotPassed

  function Effective(e: Evidence, stale: bool, available: Available): Status {
    if !Readable(available, e.log) then Unavailable else if stale then Invalidated else e.status
  }

  /** A status that is not passed, with the artifact reason if it is the log that is missing. */
  function NotPassed(reasons: seq<Reason>, reason: Reason, status: Status): seq<Reason> {
    reasons + [reason] + if status == Unavailable && ArtifactUnavailable !in reasons + [reason] then [ArtifactUnavailable] else []
  }

  function CheckReason(reasons: seq<Reason>, evidence: seq<Evidence>, candidate: Id, check: Id, stale: bool, available: Available): seq<Reason> {
    var n := LastCheck(evidence, candidate, check);
    if n == 0 then reasons + [CheckMissing(check)]
    else
      var status := Effective(evidence[n - 1], stale, available);
      if status == Passed then reasons else NotPassed(reasons, CheckNotPassed(check), status)
  }

  function CheckReasons(reasons: seq<Reason>, evidence: seq<Evidence>, candidate: Id, checks: seq<Check>, stale: bool,
                        available: Available): seq<Reason>
    decreases |checks|
  {
    if checks == [] then reasons
    else CheckReasons(CheckReason(reasons, evidence, candidate, checks[0].id, stale, available), evidence, candidate, checks[1..],
                      stale, available)
  }

  function ReviewReasons(reasons: seq<Reason>, evidence: seq<Evidence>, candidate: Id, ids: seq<Id>, stale: bool,
                         available: Available): seq<Reason>
  {
    var n := LastReview(evidence, candidate);
    if n == 0 then reasons + [ReviewMissing]
    else
      var changed := multiset(evidence[n - 1].input.cites) != multiset(ids);
      var status := if changed then Invalidated else Effective(evidence[n - 1], stale, available);
      var noted := if changed then reasons + [ReviewSetChanged] else reasons;
      if status == Passed then noted else NotPassed(noted, ReviewNotPassed, status)
  }

  /** The reasons that lie in the candidate itself. */
  function First(changed: bool, superseded: bool, missing: bool): seq<Reason> {
    (if changed then [ContextChanged] else []) + (if superseded then [Superseded] else []) + (if missing then [ArtifactUnavailable] else [])
  }

  /** Why a candidate does not pass the local gate now. */
  function GateReasons(l: Ledger, c: Candidate, now: Context, available: Available): seq<Reason> {
    var changed := !SameContext(c, now);
    var superseded := Highest(l.candidates, c.content.series) != c.revision;
    var first := First(changed, superseded, !AllAvailable(available, c.content.manifest));
    var checked := CheckReasons(first, l.evidence, c.id, c.content.policy.checks, changed || superseded, available);
    ReviewReasons(checked, l.evidence, c.id, LatestIds(l.evidence, c.id, c.content.policy.checks), changed || superseded, available)
  }
}
