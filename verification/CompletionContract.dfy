/** The completion contract of internal/agent/completion_contract.go: a compare-and-swap state
    machine over the criteria of one run. `ApplyClaims` reads and validates under a read lock, asks
    for evidence without any lock, and commits under the write lock. */
module CompletionContract {
  import opened Text
  import opened Wrappers

  const MAX_CRITERIA := 256
  const MAX_TEXT_BYTES := 4096
  const MAX_ID_BYTES := 96
  const MAX_SUMMARY_BYTES := 1024
  const MAX_RUN_ID_BYTES := 256

  /** A claimed state; anything but the three known ones is `Unknown`. */
  datatype ClaimState = Pending | Satisfied | Blocked | Unknown(name: string)

  datatype Status = Incomplete | Complete | BlockedStatus

  datatype ErrorCode =
    | InvalidContract | InvalidField | FieldTooLarge | UnknownCriterion | DuplicateCriterion | DuplicateClaim
    | ConflictingClaim | InvalidClaimState | InvalidEvidence | EvidenceRequired | EvidenceResolver
    | EvidenceMismatch | StaleRevision | RevisionExhausted | EmptyClaims

  datatype Error = Error(code: ErrorCode, field: string, criterionId: string)

  datatype Claim = Claim(criterionId: string, state: ClaimState, evidence: string, summary: string, assertion: string)

  /** What a criterion is in itself; it never changes. */
  datatype Identity = Identity(id: string, text: string, evidenceRequired: bool)

  /** What was last claimed about a criterion. */
  datatype Held = Held(state: ClaimState, evidence: string, summary: string, assertion: string)

  datatype Criterion = Criterion(identity: Identity, held: Held, claimRevision: nat)

  datatype Contract = Contract(runId: string, criteria: seq<Criterion>, index: map<string, nat>, revision: nat)

  /** A claim that passed validation: what criterion `at` will hold. */
  datatype Prepared = Prepared(at: nat, id: string, held: Held)

  const NOTHING := Held(Pending, "", "", "")

  // ----- validation of one claim -----

  predicate ValidDigest(s: string) {
    IsLowerSha256(s, "sha256:")
  }

  predicate ValidCriterionId(s: string) {
    IsLowerSha256(s, "criterion:sha256:")
  }

  predicate HasControl(s: string) {
    exists k :: 0 <= k < |s| && IsControl(s[k])
  }

  /** The held values that a criterion may have: pending ones carry nothing; blocked ones a reason
      only; satisfied ones that require evidence a digest and no assertion; satisfied optional ones
      exactly one of the two, and a summary only beside a digest. */
  predicate Carries(required: bool, held: Held) {
    match held.state
    case Pending => held.evidence == held.summary == held.assertion == ""
    case Blocked => held.evidence == "" && held.summary != "" && held.assertion == ""
    case Satisfied =>
      if required then ValidDigest(held.evidence) && held.assertion == ""
      else if held.evidence == "" then held.assertion != "" && held.summary == ""
      else ValidDigest(held.evidence) && held.assertion == ""
    case Unknown(_) => false
  }

  /** The checks on a claim's own fields, in the order of the code; None when all pass. */
  function FieldError(claim: Claim): Option<Error> {
    if claim.state.Unknown? then Some(Error(InvalidClaimState, "state", claim.criterionId))
    else if TrimSpace(claim.evidence) != claim.evidence then Some(Error(InvalidEvidence, "evidenceDigest", claim.criterionId))
    else if claim.evidence != "" && !ValidDigest(claim.evidence) then Some(Error(InvalidEvidence, "evidenceDigest", claim.criterionId))
    else if Utf8Length(claim.summary) > MAX_SUMMARY_BYTES then Some(Error(FieldTooLarge, "summary", claim.criterionId))
    else if Utf8Length(claim.assertion) > MAX_SUMMARY_BYTES then Some(Error(FieldTooLarge, "assertion", claim.criterionId))
    else None
  }

  /** The checks on which fields go with which state. */
  function StateError(required: bool, held: Held, id: string): Option<Error> {
    match held.state
    case Pending =>
      if held.evidence != "" || held.summary != "" || held.assertion != "" then Some(Error(InvalidField, "pendingClaim", id)) else None
    case Blocked =>
      if held.evidence != "" || held.summary == "" || held.assertion != "" then Some(Error(InvalidField, "blockedClaim", id)) else None
    case Satisfied =>
      if required && held.evidence == "" then Some(Error(EvidenceRequired, "evidenceDigest", id))
      else if required && held.assertion != "" then Some(Error(InvalidField, "assertion", id))
      else if !required && held.evidence == "" && held.assertion == "" then Some(Error(InvalidField, "assertion", id))
      else if !required && held.evidence == "" && held.summary != "" then Some(Error(InvalidField, "summary", id))
      else if held.evidence != "" && held.assertion != "" then Some(Error(InvalidField, "assertion", id))
      else None
    case Unknown(_) => None
  }

  function IdError(id: string): Option<Error> {
    if TrimSpace(id) == "" || TrimSpace(id) != id || HasControl(id) then Some(Error(InvalidField, "criterionId", ""))
    else if Utf8Length(id) > MAX_ID_BYTES then Some(Error(FieldTooLarge, "criterionId", ""))
    else if !ValidCriterionId(id) then Some(Error(InvalidField, "criterionId", ""))
    else None
  }

  /** prepareClaimLocked; `receipt` redacts and bounds the text. */
  function PrepareClaim(c: Contract, claim: Claim, receipt: string -> string): Result<Prepared, Error> {
    if IdError(claim.criterionId).Some? then Err(IdError(claim.criterionId).value)
    else if claim.criterionId !in c.index || c.index[claim.criterionId] >= |c.criteria| then
      Err(Error(UnknownCriterion, "criterionId", claim.criterionId))
    else
      var at := c.index[claim.criterionId];
      var criterion := c.criteria[at];
      var summary := receipt(TrimSpace(claim.summary));
      var assertion := receipt(TrimSpace(claim.assertion));
      var held := Held(claim.state, claim.evidence, summary, assertion);
      if FieldError(claim).Some? then Err(FieldError(claim).value)
      else if StateError(criterion.identity.evidenceRequired, held, claim.criterionId).Some? then
        Err(StateError(criterion.identity.evidenceRequired, held, claim.criterionId).value)
      else if claim.state == criterion.held.state then
        Err(Error(if held == criterion.held then DuplicateClaim else ConflictingClaim, "claim", claim.criterionId))
      else Ok(Prepared(at, claim.criterionId, held))
  }

  /** The claims that are accepted, by their own fields: they name a criterion, claim another state for
      it, and carry what goes with that state: nothing for a pending one; a reason and nothing else for a
      blocked one; a digest for a satisfied one, or, where no evidence is required, an assertion alone. */
  predicate Acceptable(c: Contract, claim: Claim, receipt: string -> string) {
    && ValidCriterionId(claim.criterionId)
    && claim.criterionId in c.index && c.index[claim.criterionId] < |c.criteria|
    && Utf8Length(claim.summary) <= MAX_SUMMARY_BYTES && Utf8Length(claim.assertion) <= MAX_SUMMARY_BYTES
    && var criterion := c.criteria[c.index[claim.criterionId]];
    && claim.state != criterion.held.state
    && match claim.state
       case Pending => claim.evidence == "" && receipt(TrimSpace(claim.summary)) == "" && receipt(TrimSpace(claim.assertion)) == ""
       case Blocked => claim.evidence == "" && receipt(TrimSpace(claim.summary)) != "" && receipt(TrimSpace(claim.assertion)) == ""
       case Satisfied =>
         if claim.evidence != "" then ValidDigest(claim.evidence) && receipt(TrimSpace(claim.assertion)) == ""
         else
           && !criterion.identity.evidenceRequired
           && receipt(TrimSpace(claim.assertion)) != "" && receipt(TrimSpace(claim.summary)) == ""
       case Unknown(_) => false
  }

  /** What a criterion holds that a claim was made about. */
  predicate HoldsClaim(held: Held, claim: Claim, receipt: string -> string) {
    && held.state == claim.state && held.evidence == claim.evidence
    && held.summary == receipt(TrimSpace(claim.summary)) && held.assertion == receipt(TrimSpace(claim.assertion))
  }

  /** A well-formed identifier passes every check on identifiers, and no other does. */
  lemma IdErrorIff(id: string)
    ensures IdError(id) == None <==> ValidCriterionId(id)
  {
    if ValidCriterionId(id) {
      assert id[0] == id[..17][0] == 'c' && id[|id| - 1] == id[17..][63];
      TrimTrimmed(id);
      assert forall k :: 0 <= k < 17 ==> id[k] == id[..17][k];
      assert forall k :: 17 <= k < |id| ==> id[k] == id[17..][k - 17];
      forall k | 0 <= k < |id| ensures '0' <= id[k] <= 'z' {
        if k < 17 {
          assert id[k] == "criterion:sha256:"[k];
        }
      }
      AsciiLength(id);
    }
  }

  lemma {:induction false} DigestIsTrimmed(s: string)
    requires ValidDigest(s)
    ensures Trimmed(s) && s != "" && TrimSpace(s) == s
  {
    assert s[0] == s[..7][0] && s[|s| - 1] == s[7..][63];
    TrimTrimmed(s);
  }

  /** A claim passes validation exactly when it is acceptable; then its criterion will hold it. */
  lemma PreparedIffAcceptable(c: Contract, claim: Claim, receipt: string -> string)
    ensures PrepareClaim(c, claim, receipt).Ok? <==> Acceptable(c, claim, receipt)
    ensures Acceptable(c, claim, receipt) ==>
              var item := PrepareClaim(c, claim, receipt).value;
              && item.at == c.index[claim.criterionId] && item.id == claim.criterionId && HoldsClaim(item.held, claim, receipt)
              && Carries(c.criteria[item.at].identity.evidenceRequired, item.held)
  {
    hide IdError, ValidCriterionId;
    IdErrorIff(claim.criterionId);
    if ValidDigest(claim.evidence) {
      DigestIsTrimmed(claim.evidence);
    }
    if claim.evidence == "" {
      TrimTrimmed(claim.evidence);
    }
  }

  /** What is wrong with a claim that is refused with an error. */
  predicate Fault(c: Contract, claim: Claim, receipt: string -> string, e: Error) {
    var id, summary, assertion := claim.criterionId, receipt(TrimSpace(claim.summary)), receipt(TrimSpace(claim.assertion));
    match e.code
    case UnknownCriterion => e.criterionId == id && e.field == "criterionId" && ValidCriterionId(id) && (id in c.index ==> c.index[id] >= |c.criteria|)
    case FieldTooLarge =>
      || (e.field == "criterionId" && e.criterionId == "" && Utf8Length(id) > MAX_ID_BYTES)
      || (e.field == "summary" && e.criterionId == id && Utf8Length(claim.summary) > MAX_SUMMARY_BYTES)
      || (e.field == "assertion" && e.criterionId == id && Utf8Length(claim.assertion) > MAX_SUMMARY_BYTES)
    case InvalidClaimState => e.criterionId == id && e.field == "state" && claim.state.Unknown?
    case InvalidEvidence => e.criterionId == id && e.field == "evidenceDigest" && claim.evidence != "" && !ValidDigest(claim.evidence)
    case InvalidField =>
      || (e.field == "criterionId" && e.criterionId == "" && !ValidCriterionId(id))
      || (e.criterionId == id &&
            (|| (e.field == "pendingClaim" && claim.state == Pending && (claim.evidence != "" || summary != "" || assertion != ""))
             || (e.field == "blockedClaim" && claim.state == Blocked && (claim.evidence != "" || summary == "" || assertion != ""))
             || (e.field == "assertion" && claim.state == Satisfied && (assertion == "" <==> claim.evidence == ""))
             || (e.field == "summary" && claim.state == Satisfied && claim.evidence == "" && summary != "")))
    case EvidenceRequired =>
      && e.criterionId == id && e.field == "evidenceDigest" && claim.state == Satisfied && claim.evidence == ""
      && id in c.index && c.index[id] < |c.criteria| && c.criteria[c.index[id]].identity.evidenceRequired
    case DuplicateClaim =>
      e.criterionId == id && e.field == "claim" && id in c.index && c.index[id] < |c.criteria| && HoldsClaim(c.criteria[c.index[id]].held, claim, receipt)
    case ConflictingClaim =>
      && e.criterionId == id && e.field == "claim" && id in c.index && c.index[id] < |c.criteria|
      && c.criteria[c.index[id]].held.state == claim.state && !HoldsClaim(c.criteria[c.index[id]].held, claim, receipt)
    case _ => false
  }

  lemma IdFault(c: Contract, claim: Claim, receipt: string -> string)
    requires IdError(claim.criterionId).Some?
    ensures Fault(c, claim, receipt, IdError(claim.criterionId).value)
  {
    hide ValidCriterionId, TrimSpace;
    IdErrorIff(claim.criterionId);
  }

  lemma EvidenceFault(evidence: string)
    ensures TrimSpace(evidence) != evidence ==> evidence != "" && !ValidDigest(evidence)
  {
    if ValidDigest(evidence) {
      DigestIsTrimmed(evidence);
    }
    TrimTrimmed("");
  }

  /** The error that refuses a claim names a fault that the claim has. */
  lemma RefusedForFault(c: Contract, claim: Claim, receipt: string -> string)
    requires PrepareClaim(c, claim, receipt).Err?
    ensures Fault(c, claim, receipt, PrepareClaim(c, claim, receipt).error)
  {
    hide IdError, ValidCriterionId, ValidDigest, TrimSpace, Utf8Length;
    IdErrorIff(claim.criterionId);
    if IdError(claim.criterionId).Some? {
      IdFault(c, claim, receipt);
    }
    EvidenceFault(claim.evidence);
  }

  lemma EmptyTexts()
    ensures TrimSpace("") == "" && Utf8Length("") == 0
  {
    TrimTrimmed("");
  }

  lemma NoDigest()
    ensures !ValidDigest("")
  {
  }

  /** What each kind of claim needs, for a criterion that is held in another state and claims of
      acceptable length: a blocked claim a reason, a satisfied one its digest or, if none is required, an
      assertion, and a claim to be pending again nothing. */
  lemma ClaimsByState(c: Contract, id: string, text: string, digest: string, receipt: string -> string)
    requires ValidCriterionId(id) && id in c.index && c.index[id] < |c.criteria| && receipt("") == ""
    requires Utf8Length(text) <= MAX_SUMMARY_BYTES
    ensures var criterion, said := c.criteria[c.index[id]], receipt(TrimSpace(text));
            && (criterion.held.state != Blocked ==>
                  && (PrepareClaim(c, Claim(id, Blocked, "", text, ""), receipt).Ok? <==> said != "")
                  && PrepareClaim(c, Claim(id, Blocked, "", "", text), receipt).Err?)
            && (criterion.held.state != Satisfied ==>
                  && (PrepareClaim(c, Claim(id, Satisfied, digest, "", ""), receipt).Ok? <==> ValidDigest(digest))
                  && (PrepareClaim(c, Claim(id, Satisfied, digest, text, ""), receipt).Ok? <==> ValidDigest(digest))
                  && (PrepareClaim(c, Claim(id, Satisfied, "", "", text), receipt).Ok? <==>
                        !criterion.identity.evidenceRequired && said != ""))
            && (criterion.held.state != Pending ==> PrepareClaim(c, Claim(id, Pending, "", "", ""), receipt).Ok?)
  {
    hide PrepareClaim, ValidCriterionId, TrimSpace, Utf8Length;
    EmptyTexts();
    NoDigest();
    PreparedIffAcceptable(c, Claim(id, Blocked, "", text, ""), receipt);
    PreparedIffAcceptable(c, Claim(id, Blocked, "", "", text), receipt);
    PreparedIffAcceptable(c, Claim(id, Satisfied, digest, "", ""), receipt);
    PreparedIffAcceptable(c, Claim(id, Satisfied, digest, text, ""), receipt);
    PreparedIffAcceptable(c, Claim(id, Satisfied, "", "", text), receipt);
    PreparedIffAcceptable(c, Claim(id, Pending, "", "", ""), receipt);
  }

  // ----- validation of a batch -----

  /** The loop of prepareClaimsLocked, from some claim on; `seen` are the items before it. */
  function PrepareRest(c: Contract, claims: seq<Claim>, seen: map<string, Prepared>, receipt: string -> string)
    : Result<seq<Prepared>, Error>
  {
    if claims == [] then Ok([])
    else
      match PrepareClaim(c, claims[0], receipt)
      case Err(e) => Err(e)
      case Ok(item) =>
        if item.id in seen then
          Err(Error(if seen[item.id] == item then DuplicateClaim else ConflictingClaim, "claims", item.id))
        else
          match PrepareRest(c, claims[1..], seen[item.id := item], receipt)
          case Err(e) => Err(e)
          case Ok(rest) => Ok([item] + rest)
  }

  function PrepareClaims(c: Contract, claims: seq<Claim>, receipt: string -> string): Result<seq<Prepared>, Error> {
    if claims == [] then Err(Error(EmptyClaims, "claims", ""))
    else if |claims| > MAX_CRITERIA then Err(Error(FieldTooLarge, "claims", ""))
    else PrepareRest(c, claims, map[], receipt)
  }

  ghost predicate DistinctIds(claims: seq<Claim>) {
    forall i, j :: 0 <= i < j < |claims| ==> claims[i].criterionId != claims[j].criterionId
  }

  lemma {:induction false} RestIffAcceptable(c: Contract, claims: seq<Claim>, seen: map<string, Prepared>, receipt: string -> string)
    ensures PrepareRest(c, claims, seen, receipt).Ok? <==>
            && (forall claim :: claim in claims ==> Acceptable(c, claim, receipt) && claim.criterionId !in seen)
            && DistinctIds(claims)
    ensures PrepareRest(c, claims, seen, receipt).Ok? ==>
              var items := PrepareRest(c, claims, seen, receipt).value;
              && |items| == |claims|
              && forall i :: 0 <= i < |items| ==> PrepareClaim(c, claims[i], receipt) == Ok(items[i])
  {
    hide PrepareClaim, Acceptable;
    if claims != [] {
      PreparedIffAcceptable(c, claims[0], receipt);
      if Acceptable(c, claims[0], receipt) {
        var item := PrepareClaim(c, claims[0], receipt).value;
        RestIffAcceptable(c, claims[1..], seen[item.id := item], receipt);
        if DistinctIds(claims) {
          forall claim | claim in claims[1..] ensures claim.criterionId != claims[0].criterionId {
            var k :| 0 <= k < |claims[1..]| && claims[1..][k] == claim;
            assert claims[k + 1] == claim;
          }
        }
        if PrepareRest(c, claims, seen, receipt).Ok? {
          forall i, j | 0 <= i < j < |claims| ensures claims[i].criterionId != claims[j].criterionId {
            assert claims[j] == claims[1..][j - 1];
            if i > 0 {
              assert claims[i] == claims[1..][i - 1];
            }
          }
        }
      }
    }
  }

  /** A batch passes validation exactly when it is not empty, not too long, every claim is
      acceptable, and no criterion is claimed twice. */
  lemma BatchIffAcceptable(c: Contract, claims: seq<Claim>, receipt: string -> string)
    ensures PrepareClaims(c, claims, receipt).Ok? <==>
            && 0 < |claims| <= MAX_CRITERIA
            && (forall claim :: claim in claims ==> Acceptable(c, claim, receipt))
            && DistinctIds(claims)
  {
    RestIffAcceptable(c, claims, map[], receipt);
  }

  predicate Repeats(first: Claim, again: Claim, receipt: string -> string, code: ErrorCode) {
    && first.criterionId == again.criterionId
    && code == if HoldsClaim(Held(first.state, first.evidence, receipt(TrimSpace(first.summary)), receipt(TrimSpace(first.assertion))), again, receipt)
               then DuplicateClaim else ConflictingClaim
  }

  /** The first claim of a batch that is refused, and why: for a fault of its own, or because the same
      criterion was claimed before, in the same way or in another. */
  ghost predicate FirstFault(c: Contract, claims: seq<Claim>, receipt: string -> string, i: nat, e: Error)
    requires i < |claims|
  {
    && (forall j :: 0 <= j < i ==> Acceptable(c, claims[j], receipt))
    && if !Acceptable(c, claims[i], receipt) then Fault(c, claims[i], receipt, e)
       else
         && e.field == "claims" && e.criterionId == claims[i].criterionId
         && exists j :: 0 <= j < i && Repeats(claims[j], claims[i], receipt, e.code)
  }

  /** What has been seen is what the claims before were prepared as. */
  ghost predicate SeenAre(c: Contract, claims: seq<Claim>, seen: map<string, Prepared>, receipt: string -> string) {
    && (forall claim :: claim in claims ==> Acceptable(c, claim, receipt))
    && forall id :: id in seen ==> exists j :: 0 <= j < |claims| && claims[j].criterionId == id && PrepareClaim(c, claims[j], receipt) == Ok(seen[id])
  }

  lemma SeenMore(c: Contract, claims: seq<Claim>, claim: Claim, item: Prepared, seen: map<string, Prepared>, receipt: string -> string)
    requires SeenAre(c, claims, seen, receipt) && Acceptable(c, claim, receipt) && PrepareClaim(c, claim, receipt) == Ok(item)
    ensures SeenAre(c, claims + [claim], seen[claim.criterionId := item], receipt)
  {
    hide PrepareClaim, Acceptable;
    var all, more := claims + [claim], seen[claim.criterionId := item];
    forall id | id in more
      ensures exists j :: 0 <= j < |all| && all[j].criterionId == id && PrepareClaim(c, all[j], receipt) == Ok(more[id])
    {
      if id == claim.criterionId {
        assert all[|claims|] == claim;
      } else {
        var j :| 0 <= j < |claims| && claims[j].criterionId == id && PrepareClaim(c, claims[j], receipt) == Ok(seen[id]);
        assert all[j] == claims[j];
      }
    }
  }

  lemma RepeatedClaim(c: Contract, first: Claim, again: Claim, a: Prepared, b: Prepared, receipt: string -> string)
    requires PrepareClaim(c, first, receipt) == Ok(a) && PrepareClaim(c, again, receipt) == Ok(b)
    requires first.criterionId == again.criterionId
    ensures Repeats(first, again, receipt, if a == b then DuplicateClaim else ConflictingClaim)
  {
    hide PrepareClaim, Acceptable, TrimSpace;
    PreparedIffAcceptable(c, first, receipt);
    PreparedIffAcceptable(c, again, receipt);
  }

  lemma {:induction false} RestFault(c: Contract, claims: seq<Claim>, i: nat, seen: map<string, Prepared>, receipt: string -> string)
    requires i <= |claims| && SeenAre(c, claims[..i], seen, receipt) && PrepareRest(c, claims[i..], seen, receipt).Err?
    ensures exists k :: i <= k < |claims| && FirstFault(c, claims, receipt, k, PrepareRest(c, claims[i..], seen, receipt).error)
    decreases |claims| - i
  {
    hide PrepareClaim, Acceptable, Fault;
    var error := PrepareRest(c, claims[i..], seen, receipt).error;
    if i < |claims| {
      var claim := claims[i];
      assert claims[i..][0] == claim && claims[i..][1..] == claims[i + 1..] && claims[..i + 1] == claims[..i] + [claim];
      assert forall j :: 0 <= j < i ==> claims[j] in claims[..i];
      PreparedIffAcceptable(c, claim, receipt);
      if !Acceptable(c, claim, receipt) {
        RefusedForFault(c, claim, receipt);
        assert FirstFault(c, claims, receipt, i, error);
      } else {
        var item := PrepareClaim(c, claim, receipt).value;
        if item.id in seen {
          var j :| 0 <= j < i && claims[..i][j].criterionId == item.id && PrepareClaim(c, claims[..i][j], receipt) == Ok(seen[item.id]);
          assert claims[..i][j] == claims[j];
          RepeatedClaim(c, claims[j], claim, seen[item.id], item, receipt);
          assert FirstFault(c, claims, receipt, i, error);
        } else {
          SeenMore(c, claims[..i], claim, item, seen, receipt);
          RestFault(c, claims, i + 1, seen[item.id := item], receipt);
        }
      }
    }
  }

  /** The error that refuses a batch is about its length or about the first claim at fault. */
  lemma BatchFault(c: Contract, claims: seq<Claim>, receipt: string -> string)
    requires PrepareClaims(c, claims, receipt).Err?
    ensures var e := PrepareClaims(c, claims, receipt).error;
            if claims == [] then e == Error(EmptyClaims, "claims", "")
            else if |claims| > MAX_CRITERIA then e == Error(FieldTooLarge, "claims", "")
            else exists k :: 0 <= k < |claims| && FirstFault(c, claims, receipt, k, e)
  {
    hide PrepareRest, FirstFault;
    if 0 < |claims| <= MAX_CRITERIA {
      assert claims[0..] == claims;
      RestFault(c, claims, 0, map[], receipt);
    }
  }

  // ----- reading, evidence, committing -----

  /** The phase under the read lock. */
  function ReadPhase(c: Contract, expected: nat, claims: seq<Claim>, receipt: string -> string): Result<seq<Prepared>, Error> {
    if expected != c.revision then Err(Error(StaleRevision, "expectedRevision", ""))
    else if c.revision == MAX_UINT64 then Err(Error(RevisionExhausted, "revision", ""))
    else PrepareClaims(c, claims, receipt)
  }

  /** What the evidence resolver said about one claim; `Skipped` when it was not asked. */
  datatype Answer = Skipped | NoResolver | ResolverFailed | NotFound | Found

  predicate NeedsEvidence(item: Prepared) {
    item.held.state == Satisfied && item.held.evidence != ""
  }

  function Verdict(item: Prepared, answer: Answer): Option<Error> {
    if !NeedsEvidence(item) then None
    else
      match answer
      case Found => None
      case NotFound => Some(Error(EvidenceMismatch, "evidenceDigest", item.id))
      case _ => Some(Error(EvidenceResolver, "evidenceDigest", item.id))
  }

  /** The first claim whose evidence is refused. */
  function EvidencePhase(items: seq<Prepared>, answers: seq<Answer>): Option<Error>
    requires |items| <= |answers|
  {
    if items == [] then None
    else if Verdict(items[0], answers[0]).Some? then Verdict(items[0], answers[0])
    else EvidencePhase(items[1..], answers[1..])
  }

  function Store(criteria: seq<Criterion>, items: seq<Prepared>, revision: nat): (result: seq<Criterion>)
    ensures |result| == |criteria|
    decreases |items|
  {
    if items == [] then criteria
    else
      var item := items[0];
      var updated :=
        if item.at < |criteria| then criteria[item.at := Criterion(criteria[item.at].identity, item.held, revision)]
        else criteria;
      Store(updated, items[1..], revision)
  }

  /** What committing a batch does to the contract. */
  function Committed(c: Contract, items: seq<Prepared>): Contract {
    c.(criteria := Store(c.criteria, items, c.revision + 1), revision := c.revision + 1)
  }

  /** The phase under the write lock. */
  function CommitPhase(c: Contract, expected: nat, items: seq<Prepared>): Result<Contract, Error> {
    if c.revision != expected then Err(Error(StaleRevision, "expectedRevision", "")) else Ok(Committed(c, items))
  }

  /** A call of ApplyClaims that nothing interferes with, given what the resolver answers. */
  ghost predicate Alone(c: Contract, expected: nat, claims: seq<Claim>, answers: seq<Answer>, receipt: string -> string,
                        outcome: Result<Contract, Error>)
  {
    match ReadPhase(c, expected, claims, receipt)
    case Err(e) => outcome == Err(e)
    case Ok(items) =>
      && |items| <= |answers|
      && outcome == match EvidencePhase(items, answers)
                    case Some(e) => Err(e)
                    case None => Ok(Committed(c, items))
  }

  // ----- what every reachable contract keeps -----

  ghost predicate Indexed(c: Contract) {
    && (forall i :: 0 <= i < |c.criteria| ==> c.criteria[i].identity.id in c.index && c.index[c.criteria[i].identity.id] == i)
    && (forall id :: id in c.index ==> c.index[id] < |c.criteria| && c.criteria[c.index[id]].identity.id == id)
  }

  /** `confirmed` are the digests that the resolver confirmed for this run. */
  ghost predicate CriterionOk(criterion: Criterion, revision: nat, confirmed: set<string>) {
    && Carries(criterion.identity.evidenceRequired, criterion.held)
    && criterion.claimRevision <= revision
    && (criterion.held.evidence != "" ==> criterion.held.evidence in confirmed)
  }

  ghost predicate ContractInv(c: Contract, confirmed: set<string>) {
    && Indexed(c) && c.revision <= MAX_UINT64
    && forall i :: 0 <= i < |c.criteria| ==> CriterionOk(c.criteria[i], c.revision, confirmed)
  }

  ghost predicate DistinctTargets(items: seq<Prepared>) {
    forall i, j :: 0 <= i < j < |items| ==> items[i].at != items[j].at
  }

  ghost predicate Untargeted(items: seq<Prepared>, k: nat) {
    forall i :: 0 <= i < |items| ==> items[i].at != k
  }

  ghost predicate StoredAt(criteria: seq<Criterion>, items: seq<Prepared>, revision: nat, i: nat)
    requires i < |items|
  {
    && items[i].at < |criteria|
    && Store(criteria, items, revision)[items[i].at] == Criterion(criteria[items[i].at].identity, items[i].held, revision)
  }

  /** Storing a batch with distinct targets: every target holds its claim, the rest is untouched. */
  lemma {:induction false} StoreEffect(criteria: seq<Criterion>, items: seq<Prepared>, revision: nat)
    requires DistinctTargets(items) && forall i :: 0 <= i < |items| ==> items[i].at < |criteria|
    ensures forall i :: 0 <= i < |items| ==> StoredAt(criteria, items, revision, i)
    ensures forall k :: 0 <= k < |criteria| && Untargeted(items, k) ==> Store(criteria, items, revision)[k] == criteria[k]
    decreases |items|
  {
    if items != [] {
      var item, rest := items[0], items[1..];
      var updated := criteria[item.at := Criterion(criteria[item.at].identity, item.held, revision)];
      assert forall i :: 0 <= i < |rest| ==> rest[i] == items[i + 1];
      StoreEffect(updated, rest, revision);
      forall i | 0 <= i < |items| ensures StoredAt(criteria, items, revision, i) {
        if i == 0 {
          assert Untargeted(rest, item.at);
        } else {
          assert StoredAt(updated, rest, revision, i - 1);
        }
      }
      forall k | 0 <= k < |criteria| && Untargeted(items, k) ensures Store(criteria, items, revision)[k] == criteria[k] {
        assert Untargeted(rest, k) && item.at != k;
      }
    }
  }

  lemma BatchTargets(c: Contract, claims: seq<Claim>, items: seq<Prepared>, receipt: string -> string)
    requires Indexed(c) && PrepareClaims(c, claims, receipt) == Ok(items)
    ensures DistinctTargets(items) && |items| == |claims|
    ensures forall i :: 0 <= i < |items| ==> claims[i].criterionId in c.index
    ensures forall i :: 0 <= i < |items| ==>
              && items[i].at < |c.criteria| && items[i].at == c.index[claims[i].criterionId] && items[i].id == claims[i].criterionId
              && HoldsClaim(items[i].held, claims[i], receipt)
              && Carries(c.criteria[items[i].at].identity.evidenceRequired, items[i].held)
              && items[i].held.state != c.criteria[items[i].at].held.state
  {
    RestIffAcceptable(c, claims, map[], receipt);
    hide PrepareClaim;
    forall i | 0 <= i < |items|
      ensures Acceptable(c, claims[i], receipt) && items[i].at == c.index[claims[i].criterionId] && items[i].id == claims[i].criterionId
              && HoldsClaim(items[i].held, claims[i], receipt)
              && Carries(c.criteria[items[i].at].identity.evidenceRequired, items[i].held)
    {
      PreparedIffAcceptable(c, claims[i], receipt);
      assert claims[i] in claims;
    }
    forall i, j | 0 <= i < j < |items| ensures items[i].at != items[j].at {
      assert claims[i].criterionId != claims[j].criterionId;
    }
  }

  /** What becomes of one criterion: it keeps its identity; if it was claimed, it holds exactly what the
      claim says, in another state than before, stamped with the new revision; if not, it is untouched. */
  ghost predicate AppliedAt(c: Contract, d: Contract, claims: seq<Claim>, receipt: string -> string, k: nat)
    requires k < |c.criteria| && k < |d.criteria|
  {
    var before, after := c.criteria[k], d.criteria[k];
    && after.identity == before.identity
    && (forall claim :: claim in claims && claim.criterionId == before.identity.id ==>
          HoldsClaim(after.held, claim, receipt) && after.held.state != before.held.state && after.claimRevision == d.revision)
    && ((forall claim :: claim in claims ==> claim.criterionId != before.identity.id) ==> after == before)
  }

  /** What becomes of a contract when a batch is applied. */
  ghost predicate Applied(c: Contract, d: Contract, claims: seq<Claim>, receipt: string -> string) {
    && d.runId == c.runId && d.index == c.index && d.revision == c.revision + 1 && |d.criteria| == |c.criteria|
    && forall k :: 0 <= k < |c.criteria| ==> AppliedAt(c, d, claims, receipt, k)
  }

  /** The item of a claim is stored in the criterion that the claim names. */
  lemma ItemStored(c: Contract, claims: seq<Claim>, items: seq<Prepared>, receipt: string -> string, i: nat)
    requires Indexed(c) && PrepareClaims(c, claims, receipt) == Ok(items) && i < |claims|
    ensures |items| == |claims| && claims[i].criterionId in c.index
    ensures var k, d := c.index[claims[i].criterionId], Committed(c, items);
            && items[i].at == k < |c.criteria| && c.criteria[k].identity.id == claims[i].criterionId && |d.criteria| == |c.criteria|
            && d.criteria[k] == Criterion(c.criteria[k].identity, items[i].held, d.revision)
            && HoldsClaim(items[i].held, claims[i], receipt) && items[i].held.state != c.criteria[k].held.state
            && Carries(c.criteria[k].identity.evidenceRequired, items[i].held)
  {
    hide PrepareClaims, HoldsClaim, Store, Carries;
    BatchTargets(c, claims, items, receipt);
    StoreEffect(c.criteria, items, c.revision + 1);
    assert StoredAt(c.criteria, items, c.revision + 1, i);
  }

  lemma OthersUntouched(c: Contract, claims: seq<Claim>, items: seq<Prepared>, receipt: string -> string, k: nat)
    requires Indexed(c) && PrepareClaims(c, claims, receipt) == Ok(items) && k < |c.criteria|
    requires forall claim :: claim in claims ==> claim.criterionId != c.criteria[k].identity.id
    ensures |Committed(c, items).criteria| == |c.criteria| && Committed(c, items).criteria[k] == c.criteria[k]
  {
    hide PrepareClaims, HoldsClaim, Store, Carries;
    BatchTargets(c, claims, items, receipt);
    StoreEffect(c.criteria, items, c.revision + 1);
    forall i | 0 <= i < |items| ensures items[i].at != k {
      assert claims[i] in claims;
    }
    assert Untargeted(items, k);
  }

  lemma CommitRevision(c: Contract, items: seq<Prepared>)
    ensures var d := Committed(c, items); d.revision == c.revision + 1 && d.index == c.index && d.runId == c.runId
  {
  }

  lemma CommitLength(c: Contract, items: seq<Prepared>)
    ensures |Committed(c, items).criteria| == |c.criteria|
  {
  }

  lemma CommitAppliesAt(c: Contract, claims: seq<Claim>, items: seq<Prepared>, receipt: string -> string, k: nat)
    requires Indexed(c) && PrepareClaims(c, claims, receipt) == Ok(items) && k < |c.criteria|
    ensures |Committed(c, items).criteria| == |c.criteria| && AppliedAt(c, Committed(c, items), claims, receipt, k)
  {
    hide PrepareClaims, HoldsClaim, Committed, Carries;
    CommitLength(c, items);
    var id := c.criteria[k].identity.id;
    if claim :| claim in claims && claim.criterionId == id {
      forall other | other in claims && other.criterionId == id
        ensures HoldsClaim(Committed(c, items).criteria[k].held, other, receipt)
      {
        var j :| 0 <= j < |claims| && claims[j] == other;
        ItemStored(c, claims, items, receipt, j);
      }
      var i :| 0 <= i < |claims| && claims[i] == claim;
      ItemStored(c, claims, items, receipt, i);
      CommitRevision(c, items);
    } else {
      OthersUntouched(c, claims, items, receipt, k);
    }
  }

  /** A commit applies the batch: every claimed criterion holds its claim, all others are untouched, and
      the criteria keep carrying only what their states allow. */
  lemma CommitApplies(c: Contract, claims: seq<Claim>, items: seq<Prepared>, receipt: string -> string)
    requires Indexed(c) && PrepareClaims(c, claims, receipt) == Ok(items)
    ensures Applied(c, Committed(c, items), claims, receipt)
  {
    hide PrepareClaims, AppliedAt, Committed;
    CommitRevision(c, items);
    CommitLength(c, items);
    forall k | 0 <= k < |c.criteria| ensures AppliedAt(c, Committed(c, items), claims, receipt, k) {
      CommitAppliesAt(c, claims, items, receipt, k);
    }
  }

  /** A commit moves every claimed criterion to another state, stamps it with the new revision, and
      leaves every other criterion, and every criterion's identity, alone. */
  lemma CommitChangesClaimed(c: Contract, claims: seq<Claim>, items: seq<Prepared>, receipt: string -> string, k: nat)
    requires Indexed(c) && PrepareClaims(c, claims, receipt) == Ok(items) && k < |c.criteria|
    ensures var d := Committed(c, items);
            && |d.criteria| == |c.criteria| && d.criteria[k].identity == c.criteria[k].identity && d.index == c.index
            && (!Untargeted(items, k) ==>
                  && d.criteria[k].held.state != c.criteria[k].held.state && d.criteria[k].claimRevision == d.revision
                  && Carries(d.criteria[k].identity.evidenceRequired, d.criteria[k].held))
            && (Untargeted(items, k) ==> d.criteria[k] == c.criteria[k])
  {
    hide PrepareClaim, Acceptable, HoldsClaim, Store;
    BatchTargets(c, claims, items, receipt);
    StoreEffect(c.criteria, items, c.revision + 1);
    if !Untargeted(items, k) {
      var i :| 0 <= i < |items| && items[i].at == k;
      assert StoredAt(c.criteria, items, c.revision + 1, i);
    }
  }

  /** Committing a validated batch whose evidence was confirmed keeps the invariant. */
  lemma CommitKeepsInv(c: Contract, claims: seq<Claim>, items: seq<Prepared>, receipt: string -> string, confirmed: set<string>)
    requires ContractInv(c, confirmed) && c.revision < MAX_UINT64
    requires PrepareClaims(c, claims, receipt) == Ok(items)
    requires forall i :: 0 <= i < |items| && NeedsEvidence(items[i]) ==> items[i].held.evidence in confirmed
    ensures ContractInv(Committed(c, items), confirmed)
  {
    hide PrepareClaim, PrepareClaims, Acceptable, HoldsClaim, Store;
    var d := Committed(c, items);
    BatchTargets(c, claims, items, receipt);
    StoreEffect(c.criteria, items, c.revision + 1);
    forall k | 0 <= k < |d.criteria|
      ensures d.criteria[k].identity == c.criteria[k].identity && CriterionOk(d.criteria[k], d.revision, confirmed)
    {
      assert CriterionOk(c.criteria[k], c.revision, confirmed);
      if !Untargeted(items, k) {
        var i :| 0 <= i < |items| && items[i].at == k;
        assert StoredAt(c.criteria, items, c.revision + 1, i);
      }
    }
  }

  // ----- concurrent calls -----

  /** Where a finished call lies among the committed batches: how many there were when it began, at the
      moment that its outcome is about, and when it had ended. */
  datatype Span = Span(begun: nat, point: nat, ended: nat)

  /** A call of ApplyClaims: between its phases, or finished. `at` is the contract that the call's
      outcome is about: the one it read, or the one it found when it took the write lock. */
  datatype Call =
    | Resolving(expected: nat, claims: seq<Claim>, items: seq<Prepared>, answers: seq<Answer>, at: Contract, begun: nat)
    | Finished(expected: nat, claims: seq<Claim>, answers: seq<Answer>, at: Contract, outcome: Result<Contract, Error>, span: Span)

  /** A committed batch. */
  datatype Entry = Entry(call: nat, expected: nat, claims: seq<Claim>, items: seq<Prepared>)

  datatype State = State(contract: Contract, calls: seq<Call>, confirmed: set<string>, log: seq<Entry>)

  datatype Step =
    | Begin(expected: nat, claims: seq<Claim>)
    | Ask(call: nat, answer: Answer)
    | Commit(call: nat)

  function BeginStep(s: State, expected: nat, claims: seq<Claim>, receipt: string -> string): State {
    var call := match ReadPhase(s.contract, expected, claims, receipt)
                case Err(e) => Finished(expected, claims, [], s.contract, Err(e), Span(|s.log|, |s.log|, |s.log|))
                case Ok(items) => Resolving(expected, claims, items, [], s.contract, |s.log|);
    s.(calls := s.calls + [call])
  }

  predicate Asking(s: State, k: nat) {
    k < |s.calls| && s.calls[k].Resolving? && |s.calls[k].answers| < |s.calls[k].items|
  }

  /** The resolver is asked about the next claim, outside the lock. */
  function AskStep(s: State, k: nat, answer: Answer): State {
    if !Asking(s, k) then s
    else
      var call := s.calls[k];
      var item := call.items[|call.answers|];
      var given := call.answers + [answer];
      match Verdict(item, answer)
      case Some(e) =>
        s.(calls := s.calls[k := Finished(call.expected, call.claims, given, call.at, Err(e), Span(call.begun, call.begun, |s.log|))])
      case None =>
        s.(calls := s.calls[k := Resolving(call.expected, call.claims, call.items, given, call.at, call.begun)],
           confirmed := if NeedsEvidence(item) then s.confirmed + {item.held.evidence} else s.confirmed)
  }

  predicate Committing(s: State, k: nat) {
    k < |s.calls| && s.calls[k].Resolving? && |s.calls[k].answers| >= |s.calls[k].items|
  }

  function CommitStep(s: State, k: nat): State {
    if !Committing(s, k) then s
    else
      var call := s.calls[k];
      match CommitPhase(s.contract, call.expected, call.items)
      case Err(e) =>
        s.(calls := s.calls[k := Finished(call.expected, call.claims, call.answers, s.contract, Err(e), Span(call.begun, |s.log|, |s.log|))])
      case Ok(d) =>
        s.(contract := d,
           calls := s.calls[k := Finished(call.expected, call.claims, call.answers, s.contract, Ok(d), Span(call.begun, |s.log|, |s.log| + 1))],
           log := s.log + [Entry(k, call.expected, call.claims, call.items)])
  }

  function Next(s: State, step: Step, receipt: string -> string): State {
    match step
    case Begin(expected, claims) => BeginStep(s, expected, claims, receipt)
    case Ask(k, answer) => AskStep(s, k, answer)
    case Commit(k) => CommitStep(s, k)
  }

  function Run(s: State, steps: seq<Step>, receipt: string -> string): State
    decreases |steps|
  {
    if steps == [] then s else Run(Next(s, steps[0], receipt), steps[1..], receipt)
  }

  function Start(c: Contract): State {
    State(c, [], {}, [])
  }

  /** The contract after committing the logged batches one after the other. */
  function Replay(c: Contract, log: seq<Entry>): Contract
    decreases |log|
  {
    if log == [] then c else Committed(Replay(c, log[..|log| - 1]), log[|log| - 1].items)
  }

  /** Every logged batch was validated against exactly the contract it replaced. */
  ghost predicate LogInv(c: Contract, log: seq<Entry>, receipt: string -> string) {
    forall k :: 0 <= k < |log| ==> ReadPhase(Replay(c, log[..k]), log[k].expected, log[k].claims, receipt) == Ok(log[k].items)
  }

  ghost predicate CallInv(s: State, call: Call, receipt: string -> string) {
    match call
    case Resolving(expected, claims, items, answers, at, _) =>
      && at.revision == expected <= s.contract.revision && |answers| <= |items|
      && (expected == s.contract.revision ==> at == s.contract)
      && ReadPhase(at, expected, claims, receipt) == Ok(items)
      && (forall i :: 0 <= i < |answers| ==> Verdict(items[i], answers[i]) == None)
      && (forall i :: 0 <= i < |answers| && NeedsEvidence(items[i]) ==> items[i].held.evidence in s.confirmed)
    case Finished(expected, claims, answers, at, outcome, _) =>
      exists more :: Alone(at, expected, claims, answers + more, receipt, outcome)
  }

  ghost predicate Inv(c: Contract, s: State, receipt: string -> string) {
    && ContractInv(s.contract, s.confirmed)
    && s.contract == Replay(c, s.log) && s.contract.revision == c.revision + |s.log|
    && LogInv(c, s.log, receipt)
    && forall k :: 0 <= k < |s.calls| ==> CallInv(s, s.calls[k], receipt)
  }

  /** Evidence that was accepted so far decides nothing; the first refusal decides. */
  lemma {:induction false} EvidenceSoFar(items: seq<Prepared>, answers: seq<Answer>, k: nat)
    requires k <= |items| <= |answers|
    requires forall i :: 0 <= i < k ==> Verdict(items[i], answers[i]) == None
    ensures EvidencePhase(items, answers) == EvidencePhase(items[k..], answers[k..])
    decreases k
  {
    if k == 0 {
      assert items[0..] == items && answers[0..] == answers;
    } else {
      assert items[1..][k - 1..] == items[k..] && answers[1..][k - 1..] == answers[k..];
      forall i | 0 <= i < k - 1 ensures Verdict(items[1..][i], answers[1..][i]) == None {
        assert Verdict(items[i + 1], answers[i + 1]) == None;
      }
      EvidenceSoFar(items[1..], answers[1..], k - 1);
    }
  }

  lemma CallCarries(s: State, t: State, call: Call, receipt: string -> string)
    requires CallInv(s, call, receipt)
    requires s.confirmed <= t.confirmed && (t.contract == s.contract || s.contract.revision < t.contract.revision)
    ensures CallInv(t, call, receipt)
  {
  }

  lemma BeginKeeps(c: Contract, s: State, expected: nat, claims: seq<Claim>, receipt: string -> string)
    requires Inv(c, s, receipt)
    ensures Inv(c, BeginStep(s, expected, claims, receipt), receipt)
  {
    var t := BeginStep(s, expected, claims, receipt);
    forall k | 0 <= k < |t.calls| ensures CallInv(t, t.calls[k], receipt) {
      if k < |s.calls| {
        CallCarries(s, t, s.calls[k], receipt);
      } else if t.calls[k].Finished? {
        assert Alone(s.contract, expected, claims, [] + [], receipt, t.calls[k].outcome);
      }
    }
  }

  /** A refused claim decides the call as it would decide an undisturbed one. */
  lemma RefusedAlone(call: Call, answer: Answer, e: Error, receipt: string -> string)
    requires call.Resolving? && |call.answers| < |call.items|
    requires ReadPhase(call.at, call.expected, call.claims, receipt) == Ok(call.items)
    requires forall i :: 0 <= i < |call.answers| ==> Verdict(call.items[i], call.answers[i]) == None
    requires Verdict(call.items[|call.answers|], answer) == Some(e)
    ensures exists more :: Alone(call.at, call.expected, call.claims, call.answers + [answer] + more, receipt, Err(e))
  {
    var more := seq(|call.items|, _ => Skipped);
    var all := call.answers + [answer] + more;
    EvidenceSoFar(call.items, all, |call.answers|);
    assert all[|call.answers|..][0] == answer;
    assert Alone(call.at, call.expected, call.claims, call.answers + [answer] + more, receipt, Err(e));
  }

  /** An accepted claim lets the call go on. */
  lemma AcceptedGoesOn(s: State, k: nat, answer: Answer, receipt: string -> string)
    requires Asking(s, k) && CallInv(s, s.calls[k], receipt)
    requires Verdict(s.calls[k].items[|s.calls[k].answers|], answer) == None
    ensures CallInv(AskStep(s, k, answer), AskStep(s, k, answer).calls[k], receipt)
  {
    hide ReadPhase;
  }

  lemma AskKeeps(c: Contract, s: State, k: nat, answer: Answer, receipt: string -> string)
    requires Inv(c, s, receipt)
    ensures Inv(c, AskStep(s, k, answer), receipt)
  {
    hide ReadPhase, LogInv, Replay, Verdict, Carries;
    if Asking(s, k) {
      var t, call := AskStep(s, k, answer), s.calls[k];
      assert CallInv(s, call, receipt);
      var verdict := Verdict(call.items[|call.answers|], answer);
      if verdict.Some? {
        RefusedAlone(call, answer, verdict.value, receipt);
      } else {
        AcceptedGoesOn(s, k, answer, receipt);
      }
      forall j | 0 <= j < |t.calls| ensures CallInv(t, t.calls[j], receipt) {
        if j != k {
          CallCarries(s, t, s.calls[j], receipt);
        }
      }
    }
  }

  lemma FinishedAlone(call: Call, receipt: string -> string)
    requires call.Resolving? && |call.answers| == |call.items|
    requires ReadPhase(call.at, call.expected, call.claims, receipt) == Ok(call.items)
    requires forall i :: 0 <= i < |call.answers| ==> Verdict(call.items[i], call.answers[i]) == None
    ensures Alone(call.at, call.expected, call.claims, call.answers + [], receipt, Ok(Committed(call.at, call.items)))
  {
    assert call.answers + [] == call.answers;
    EvidenceSoFar(call.items, call.answers, |call.items|);
  }

  lemma LogAppend(c: Contract, log: seq<Entry>, entry: Entry, receipt: string -> string)
    requires LogInv(c, log, receipt)
    requires ReadPhase(Replay(c, log), entry.expected, entry.claims, receipt) == Ok(entry.items)
    ensures LogInv(c, log + [entry], receipt)
    ensures Replay(c, log + [entry]) == Committed(Replay(c, log), entry.items)
  {
    var all := log + [entry];
    assert all[..|log|] == log;
    forall k | 0 <= k < |all| ensures ReadPhase(Replay(c, all[..k]), all[k].expected, all[k].claims, receipt) == Ok(all[k].items) {
      if k < |log| {
        assert all[..k] == log[..k];
      }
    }
  }

  lemma CommitKeeps(c: Contract, s: State, k: nat, receipt: string -> string)
    requires Inv(c, s, receipt)
    ensures Inv(c, CommitStep(s, k), receipt)
  {
    if Committing(s, k) {
      var t, call := CommitStep(s, k), s.calls[k];
      assert CallInv(s, call, receipt);
      if call.expected == s.contract.revision {
        FinishedAlone(call, receipt);
        CommitKeepsInv(s.contract, call.claims, call.items, receipt, s.confirmed);
        LogAppend(c, s.log, Entry(k, call.expected, call.claims, call.items), receipt);
      } else {
        assert Alone(s.contract, call.expected, call.claims, call.answers + [], receipt, t.calls[k].outcome);
      }
      forall j | 0 <= j < |t.calls| ensures CallInv(t, t.calls[j], receipt) {
        if j != k {
          CallCarries(s, t, s.calls[j], receipt);
        }
      }
    }
  }

  lemma {:induction false} RunKeeps(c: Contract, s: State, steps: seq<Step>, receipt: string -> string)
    requires Inv(c, s, receipt)
    ensures Inv(c, Run(s, steps, receipt), receipt)
    decreases |steps|
  {
    hide Inv, ReadPhase, AskStep, CommitStep, BeginStep;
    if steps != [] {
      match steps[0] {
        case Begin(expected, claims) => BeginKeeps(c, s, expected, claims, receipt);
        case Ask(k, answer) => AskKeeps(c, s, k, answer, receipt);
        case Commit(k) => CommitKeeps(c, s, k, receipt);
      }
      RunKeeps(c, Next(s, steps[0], receipt), steps[1..], receipt);
    }
  }

  lemma {:induction false} ReplayRevision(c: Contract, log: seq<Entry>)
    ensures Replay(c, log).revision == c.revision + |log|
    decreases |log|
  {
    if log != [] {
      ReplayRevision(c, log[..|log| - 1]);
    }
  }

  /** The call lies within the sequence of committed batches: its contract is the one after those
      before its point, which falls between its begin and its end. A successful one is the batch at its
      point, and its result is the contract after that batch. */
  ghost predicate Placed(c: Contract, log: seq<Entry>, k: nat, call: Call) {
    match call
    case Resolving(_, _, _, _, at, begun) => begun <= |log| && at == Replay(c, log[..begun])
    case Finished(expected, claims, _, at, outcome, span) =>
      && span.begun <= span.point <= span.ended <= |log| && at == Replay(c, log[..span.point])
      && (outcome.Ok? ==>
            && span.point < span.ended && outcome.value == Replay(c, log[..span.point + 1])
            && log[span.point].call == k && log[span.point].expected == expected && log[span.point].claims == claims)
  }

  /** A logged batch is that of a call that has succeeded. */
  ghost predicate Owned(s: State, n: nat)
    requires n < |s.log|
  {
    var k := s.log[n].call;
    k < |s.calls| && s.calls[k].Finished? && s.calls[k].outcome.Ok? && s.calls[k].span.point == n
  }

  ghost predicate PlaceInv(c: Contract, s: State) {
    && s.contract == Replay(c, s.log)
    && (forall k :: 0 <= k < |s.calls| ==> Placed(c, s.log, k, s.calls[k]))
    && (forall n :: 0 <= n < |s.log| ==> Owned(s, n))
  }

  lemma PlacedCarries(c: Contract, log: seq<Entry>, entry: Entry, k: nat, call: Call)
    requires Placed(c, log, k, call)
    ensures Placed(c, log + [entry], k, call)
  {
    hide Replay;
    forall n | 0 <= n <= |log| ensures (log + [entry])[..n] == log[..n] {
    }
  }

  lemma BeginPlaces(c: Contract, s: State, expected: nat, claims: seq<Claim>, receipt: string -> string)
    requires PlaceInv(c, s)
    ensures PlaceInv(c, BeginStep(s, expected, claims, receipt))
  {
    hide Replay, ReadPhase;
    var t := BeginStep(s, expected, claims, receipt);
    assert s.log[..|s.log|] == s.log;
    forall n | 0 <= n < |t.log| ensures Owned(t, n) {
      assert Owned(s, n);
    }
  }

  lemma AskPlaces(c: Contract, s: State, k: nat, answer: Answer)
    requires PlaceInv(c, s)
    ensures PlaceInv(c, AskStep(s, k, answer))
  {
    hide Replay, Verdict;
    if Asking(s, k) {
      var t := AskStep(s, k, answer);
      assert Placed(c, s.log, k, s.calls[k]);
      forall n | 0 <= n < |t.log| ensures Owned(t, n) {
        assert Owned(s, n);
      }
    }
  }

  lemma ReplayAppend(c: Contract, log: seq<Entry>, entry: Entry)
    ensures Replay(c, log + [entry]) == Committed(Replay(c, log), entry.items)
  {
    assert (log + [entry])[..|log|] == log;
  }

  lemma CommitPlaces(c: Contract, s: State, k: nat)
    requires PlaceInv(c, s)
    ensures PlaceInv(c, CommitStep(s, k))
  {
    hide Replay;
    if Committing(s, k) {
      var t, call := CommitStep(s, k), s.calls[k];
      assert Placed(c, s.log, k, call);
      assert s.log[..|s.log|] == s.log;
      if t.log != s.log {
        var entry := Entry(k, call.expected, call.claims, call.items);
        ReplayAppend(c, s.log, entry);
        assert t.log[..|s.log|] == s.log && t.log[..|s.log| + 1] == t.log;
        forall j | 0 <= j < |t.calls| ensures Placed(c, t.log, j, t.calls[j]) {
          if j != k {
            PlacedCarries(c, s.log, entry, j, s.calls[j]);
          }
        }
      }
      forall n | 0 <= n < |t.log| ensures Owned(t, n) {
        if n < |s.log| {
          assert Owned(s, n);
        }
      }
    }
  }

  lemma {:induction false} RunPlaces(c: Contract, s: State, steps: seq<Step>, receipt: string -> string)
    requires PlaceInv(c, s)
    ensures PlaceInv(c, Run(s, steps, receipt))
    decreases |steps|
  {
    hide PlaceInv, AskStep, CommitStep, BeginStep;
    if steps != [] {
      match steps[0] {
        case Begin(expected, claims) => BeginPlaces(c, s, expected, claims, receipt);
        case Ask(k, answer) => AskPlaces(c, s, k, answer);
        case Commit(k) => CommitPlaces(c, s, k);
      }
      RunPlaces(c, Next(s, steps[0], receipt), steps[1..], receipt);
    }
  }

  lemma RunFromStart(c: Contract, steps: seq<Step>, receipt: string -> string)
    requires ContractInv(c, {})
    ensures Inv(c, Run(Start(c), steps, receipt), receipt) && PlaceInv(c, Run(Start(c), steps, receipt))
  {
    RunKeeps(c, Start(c), steps, receipt);
    RunPlaces(c, Start(c), steps, receipt);
  }

  lemma ReadNeedsRevision(c: Contract, expected: nat, claims: seq<Claim>, receipt: string -> string)
    requires ReadPhase(c, expected, claims, receipt).Ok?
    ensures c.revision == expected
  {
  }

  /** Concurrent calls are linearizable. Over any interleaving of their phases, the committed
      batches form one sequence whose replay is the final contract; each was validated against
      exactly the contract it replaced, and no two were based on the same revision. Every finished
      call ended as it would have ended alone on a contract of that sequence at a point between its
      begin and its end, and the batches of the sequence are those of the successful calls: each is
      the one at its call's point, and the call's result is the contract after it. */
  lemma Linearizable(c: Contract, steps: seq<Step>, receipt: string -> string)
    requires ContractInv(c, {})
    ensures var s := Run(Start(c), steps, receipt);
            && s.contract == Replay(c, s.log)
            && (forall k :: 0 <= k < |s.log| ==>
                  && s.log[k].expected == c.revision + k && Owned(s, k)
                  && ReadPhase(Replay(c, s.log[..k]), s.log[k].expected, s.log[k].claims, receipt) == Ok(s.log[k].items))
            && (forall j, k :: 0 <= j < k < |s.log| ==> s.log[j].expected != s.log[k].expected)
            && (forall k :: 0 <= k < |s.calls| ==> Placed(c, s.log, k, s.calls[k]))
            && (forall k :: 0 <= k < |s.calls| && s.calls[k].Finished? ==>
                  exists more :: Alone(s.calls[k].at, s.calls[k].expected, s.calls[k].claims, s.calls[k].answers + more,
                                       receipt, s.calls[k].outcome))
  {
    hide Replay, Placed, Owned, ReadPhase, Run;
    RunFromStart(c, steps, receipt);
    var s := Run(Start(c), steps, receipt);
    forall k | 0 <= k < |s.log| ensures s.log[k].expected == c.revision + k {
      ReplayRevision(c, s.log[..k]);
      ReadNeedsRevision(Replay(c, s.log[..k]), s.log[k].expected, s.log[k].claims, receipt);
    }
    forall k | 0 <= k < |s.calls| && s.calls[k].Finished?
      ensures exists more :: Alone(s.calls[k].at, s.calls[k].expected, s.calls[k].claims, s.calls[k].answers + more,
                                   receipt, s.calls[k].outcome)
    {
      assert CallInv(s, s.calls[k], receipt);
    }
  }

  /** In every reachable state, each criterion carries only what its state allows, its evidence was
      confirmed by the resolver for this run, and it was claimed at a revision the contract reached. */
  lemma ReachableCriteria(c: Contract, steps: seq<Step>, receipt: string -> string)
    requires ContractInv(c, {})
    ensures var s := Run(Start(c), steps, receipt); ContractInv(s.contract, s.confirmed)
  {
    RunKeeps(c, Start(c), steps, receipt);
  }

  /** A digest counts as confirmed only if the resolver found it when a call asked about it. */
  lemma ConfirmedWasFound(s: State, step: Step, receipt: string -> string, digest: string)
    requires digest in Next(s, step, receipt).confirmed && digest !in s.confirmed
    ensures step.Ask? && step.answer == Found && Asking(s, step.call)
    ensures var call := s.calls[step.call]; call.items[|call.answers|].held.evidence == digest
  {
  }

  /** A step that ends a call with an error leaves the contract as it was. */
  lemma FailingCallChangesNothing(s: State, step: Step, receipt: string -> string, k: nat)
    requires var t := Next(s, step, receipt);
             && k < |t.calls| && t.calls[k].Finished? && t.calls[k].outcome.Err?
             && (k >= |s.calls| || s.calls[k] != t.calls[k])
    ensures Next(s, step, receipt).contract == s.contract && Next(s, step, receipt).log == s.log
  {
  }

  // ----- construction -----

  /** `normalize` is the plan anchor's white-space normalization, `hash` the hexadecimal SHA-256. */
  function CriterionId(text: string, normalize: string -> string, hash: string -> string): string {
    "criterion:sha256:" + hash(normalize(text))
  }

  predicate UsableText(text: string) {
    TrimSpace(text) != "" && Utf8Length(text) <= MAX_TEXT_BYTES
  }

  /** The optional criteria name known texts, each at most once. */
  ghost predicate UsableOptional(optional: seq<string>, definitionOfDone: seq<string>, normalize: string -> string) {
    && (forall i :: 0 <= i < |optional| ==> UsableText(optional[i]) && normalize(optional[i]) in definitionOfDone)
    && (forall i, j :: 0 <= i < j < |optional| ==> normalize(optional[i]) != normalize(optional[j]))
  }

  /** The criteria are usable texts with pairwise different identifiers. */
  ghost predicate UsableCriteria(texts: seq<string>, normalize: string -> string, hash: string -> string) {
    && (forall i :: 0 <= i < |texts| ==> UsableText(texts[i]) && normalize(texts[i]) != "")
    && (forall i, j :: 0 <= i < j < |texts| ==> CriterionId(texts[i], normalize, hash) != CriterionId(texts[j], normalize, hash))
  }

  /** The first optional text that is not usable, and the error that says why. */
  ghost predicate OptionalFault(optional: seq<string>, definitionOfDone: seq<string>, normalize: string -> string, i: nat, e: Error)
    requires i < |optional|
  {
    var text := optional[i];
    && UsableOptional(optional[..i], definitionOfDone, normalize) && e.field == "evidenceNotRequiredCriteria" && e.criterionId == ""
    && (e.code == InvalidField <==> TrimSpace(text) == "")
    && (e.code == FieldTooLarge <==> TrimSpace(text) != "" && Utf8Length(text) > MAX_TEXT_BYTES)
    && (e.code == UnknownCriterion <==> UsableText(text) && normalize(text) !in definitionOfDone)
    && (e.code == DuplicateCriterion <==>
          UsableText(text) && normalize(text) in definitionOfDone && exists k :: 0 <= k < i && normalize(optional[k]) == normalize(text))
    && e.code in {InvalidField, FieldTooLarge, UnknownCriterion, DuplicateCriterion}
  }

  /** The first text that makes no criterion, and the error that says why; a repeated identifier is told
      apart by whether the text is repeated too. */
  ghost predicate CriterionFault(texts: seq<string>, normalize: string -> string, hash: string -> string, i: nat, e: Error)
    requires i < |texts|
  {
    var text, id := texts[i], CriterionId(texts[i], normalize, hash);
    && UsableCriteria(texts[..i], normalize, hash)
    && (e == Error(InvalidField, "criterionText", "") <==> TrimSpace(text) == "" || (UsableText(text) && normalize(text) == ""))
    && (e == Error(FieldTooLarge, "criterionText", "") <==> TrimSpace(text) != "" && Utf8Length(text) > MAX_TEXT_BYTES)
    && (e == Error(DuplicateCriterion, "definitionOfDone", id) <==>
          UsableText(text) && normalize(text) != "" && exists k :: 0 <= k < i && texts[k] == text)
    && (e == Error(InvalidContract, "definitionOfDone", id) <==>
          UsableText(text) && normalize(text) != "" && text !in texts[..i]
          && exists k :: 0 <= k < i && CriterionId(texts[k], normalize, hash) == id)
    && (e.code in {InvalidField, FieldTooLarge} || (e.field == "definitionOfDone" && e.code in {DuplicateCriterion, InvalidContract}))
  }

  /** The loop over the criteria that need no evidence. */
  method OptionalTexts(optional: seq<string>, definitionOfDone: seq<string>, normalize: string -> string)
    returns (result: Result<set<string>, Error>)
    ensures result.Ok? <==> UsableOptional(optional, definitionOfDone, normalize)
    ensures result.Err? ==> exists i :: 0 <= i < |optional| && OptionalFault(optional, definitionOfDone, normalize, i, result.error)
    ensures result.Ok? ==> forall text :: text in result.value <==> exists i :: 0 <= i < |optional| && normalize(optional[i]) == text
  {
    hide TrimSpace, Utf8Length;
    var texts: set<string> := {};
    for i := 0 to |optional|
      invariant UsableOptional(optional[..i], definitionOfDone, normalize)
      invariant forall text :: text in texts <==> exists k :: 0 <= k < i && normalize(optional[k]) == text
    {
      if TrimSpace(optional[i]) == "" {
        assert !UsableText(optional[i]);
        assert OptionalFault(optional, definitionOfDone, normalize, i, Error(InvalidField, "evidenceNotRequiredCriteria", ""));
        return Err(Error(InvalidField, "evidenceNotRequiredCriteria", ""));
      }
      if Utf8Length(optional[i]) > MAX_TEXT_BYTES {
        assert !UsableText(optional[i]);
        assert OptionalFault(optional, definitionOfDone, normalize, i, Error(FieldTooLarge, "evidenceNotRequiredCriteria", ""));
        return Err(Error(FieldTooLarge, "evidenceNotRequiredCriteria", ""));
      }
      var text := normalize(optional[i]);
      if text !in definitionOfDone {
        assert OptionalFault(optional, definitionOfDone, normalize, i, Error(UnknownCriterion, "evidenceNotRequiredCriteria", ""));
        return Err(Error(UnknownCriterion, "evidenceNotRequiredCriteria", ""));
      }
      if text in texts {
        assert OptionalFault(optional, definitionOfDone, normalize, i, Error(DuplicateCriterion, "evidenceNotRequiredCriteria", ""));
        return Err(Error(DuplicateCriterion, "evidenceNotRequiredCriteria", ""));
      }
      texts := texts + {text};
    }
    assert optional[..|optional|] == optional;
    result := Ok(texts);
  }

  /** The criterion made from one text of the definition of done. */
  function FreshCriterion(text: string, optional: set<string>, normalize: string -> string, hash: string -> string): Criterion {
    Criterion(Identity(CriterionId(text, normalize, hash), text, text !in optional), NOTHING, 0)
  }

  lemma UsableAppend(texts: seq<string>, i: nat, normalize: string -> string, hash: string -> string)
    requires i < |texts| && UsableCriteria(texts[..i], normalize, hash)
    requires UsableText(texts[i]) && normalize(texts[i]) != ""
    requires forall k :: 0 <= k < i ==> CriterionId(texts[k], normalize, hash) != CriterionId(texts[i], normalize, hash)
    ensures UsableCriteria(texts[..i + 1], normalize, hash)
  {
    var more := texts[..i + 1];
    assert forall k :: 0 <= k < i ==> more[k] == texts[..i][k];
  }

  lemma RepeatedIdentifier(texts: seq<string>, normalize: string -> string, hash: string -> string, i: nat, k: nat, code: ErrorCode)
    requires k < i < |texts| && UsableCriteria(texts[..i], normalize, hash) && UsableText(texts[i]) && normalize(texts[i]) != ""
    requires CriterionId(texts[k], normalize, hash) == CriterionId(texts[i], normalize, hash)
    requires code == if texts[k] != texts[i] then InvalidContract else DuplicateCriterion
    ensures CriterionFault(texts, normalize, hash, i, Error(code, "definitionOfDone", CriterionId(texts[i], normalize, hash)))
    ensures !UsableCriteria(texts, normalize, hash)
  {
    hide TrimSpace, Utf8Length, CriterionId;
    var before := texts[..i];
    assert before[k] == texts[k];
    forall other | 0 <= other < i && texts[other] == texts[i] ensures other == k {
      assert before[other] == texts[other];
    }
  }

  /** The loop over the definition of done. */
  method BuildCriteria(run: string, texts: seq<string>, optional: set<string>, normalize: string -> string, hash: string -> string)
    returns (result: Result<Contract, Error>)
    ensures result.Ok? <==> UsableCriteria(texts, normalize, hash)
    ensures result.Err? ==> exists i :: 0 <= i < |texts| && CriterionFault(texts, normalize, hash, i, result.error)
    ensures result.Ok? ==>
              && ContractInv(result.value, {}) && result.value.runId == run && result.value.revision == 0
              && |result.value.criteria| == |texts|
              && forall i :: 0 <= i < |texts| ==> result.value.criteria[i] == FreshCriterion(texts[i], optional, normalize, hash)
  {
    var criteria: seq<Criterion> := [];
    var index: map<string, nat> := map[];
    for i := 0 to |texts|
      invariant |criteria| == i
      invariant UsableCriteria(texts[..i], normalize, hash)
      invariant forall k :: 0 <= k < i ==> criteria[k] == FreshCriterion(texts[k], optional, normalize, hash)
      invariant Indexed(Contract(run, criteria, index, 0))
    {
      hide TrimSpace, Utf8Length;
      var text := texts[i];
      if TrimSpace(text) == "" {
        assert !UsableText(texts[i]);
        assert CriterionFault(texts, normalize, hash, i, Error(InvalidField, "criterionText", ""));
        return Err(Error(InvalidField, "criterionText", ""));
      }
      if Utf8Length(text) > MAX_TEXT_BYTES {
        assert !UsableText(texts[i]);
        assert CriterionFault(texts, normalize, hash, i, Error(FieldTooLarge, "criterionText", ""));
        return Err(Error(FieldTooLarge, "criterionText", ""));
      }
      if normalize(text) == "" {
        assert CriterionFault(texts, normalize, hash, i, Error(InvalidField, "criterionText", ""));
        return Err(Error(InvalidField, "criterionText", ""));
      }
      var id := CriterionId(text, normalize, hash);
      if id in index {
        var code := if criteria[index[id]].identity.text != text then InvalidContract else DuplicateCriterion;
        RepeatedIdentifier(texts, normalize, hash, i, index[id], code);
        return Err(Error(code, "definitionOfDone", id));
      }
      UsableAppend(texts, i, normalize, hash);
      index := index[id := i];
      criteria := criteria + [FreshCriterion(text, optional, normalize, hash)];
    }
    assert texts[..|texts|] == texts;
    result := Ok(Contract(run, criteria, index, 0));
  }

  /** NewCompletionContract: the criteria in the order of the definition of done, all pending. */
  method NewCompletionContract(runId: string, validAnchor: bool, definitionOfDone: seq<string>, optional: seq<string>,
                               normalize: string -> string, hash: string -> string)
    returns (result: Result<Contract, Error>)
    ensures result.Ok? <==>
            && TrimSpace(runId) != "" && !HasControl(TrimSpace(runId)) && Utf8Length(TrimSpace(runId)) <= MAX_RUN_ID_BYTES
            && validAnchor && 0 < |definitionOfDone| <= MAX_CRITERIA
            && UsableOptional(optional, definitionOfDone, normalize)
            && UsableCriteria(definitionOfDone, normalize, hash)
    ensures result.Err? ==>
              if TrimSpace(runId) == "" || HasControl(TrimSpace(runId)) then result.error == Error(InvalidField, "runId", "")
              else if Utf8Length(TrimSpace(runId)) > MAX_RUN_ID_BYTES then result.error == Error(FieldTooLarge, "runId", "")
              else if !validAnchor then result.error == Error(InvalidContract, "planAnchor", "")
              else if definitionOfDone == [] then result.error == Error(InvalidContract, "definitionOfDone", "")
              else if |definitionOfDone| > MAX_CRITERIA then result.error == Error(FieldTooLarge, "definitionOfDone", "")
              else if !UsableOptional(optional, definitionOfDone, normalize) then
                exists i :: 0 <= i < |optional| && OptionalFault(optional, definitionOfDone, normalize, i, result.error)
              else exists i :: 0 <= i < |definitionOfDone| && CriterionFault(definitionOfDone, normalize, hash, i, result.error)
    ensures result.Ok? ==>
              var c := result.value;
              && ContractInv(c, {}) && c.runId == TrimSpace(runId) && c.revision == 0
              && |c.criteria| == |definitionOfDone|
              && forall i :: 0 <= i < |c.criteria| ==>
                   && c.criteria[i].identity.text == definitionOfDone[i]
                   && c.criteria[i].identity.id == CriterionId(definitionOfDone[i], normalize, hash)
                   && (c.criteria[i].identity.evidenceRequired <==>
                         forall k :: 0 <= k < |optional| ==> normalize(optional[k]) != definitionOfDone[i])
                   && c.criteria[i].held == NOTHING
  {
    hide TrimSpace, Utf8Length, OptionalFault, CriterionFault, UsableOptional, UsableCriteria, HasControl;
    var run := TrimSpace(runId);
    if run == "" || HasControl(run) {
      return Err(Error(InvalidField, "runId", ""));
    }
    if Utf8Length(run) > MAX_RUN_ID_BYTES {
      return Err(Error(FieldTooLarge, "runId", ""));
    }
    if !validAnchor {
      return Err(Error(InvalidContract, "planAnchor", ""));
    }
    if definitionOfDone == [] {
      return Err(Error(InvalidContract, "definitionOfDone", ""));
    }
    if |definitionOfDone| > MAX_CRITERIA {
      return Err(Error(FieldTooLarge, "definitionOfDone", ""));
    }
    var optionalTexts := OptionalTexts(optional, definitionOfDone, normalize);
    if optionalTexts.Err? {
      return Err(optionalTexts.error);
    }
    result := BuildCriteria(run, definitionOfDone, optionalTexts.value, normalize, hash);
  }

  // ----- the code -----

  /** completionStatusLocked: blocked takes precedence; complete needs every criterion satisfied. */
  method CompletionStatus(criteria: seq<Criterion>) returns (status: Status)
    ensures status == BlockedStatus <==> exists i :: 0 <= i < |criteria| && criteria[i].held.state == Blocked
    ensures status == Complete <==>
            criteria != [] && forall i :: 0 <= i < |criteria| ==> criteria[i].held.state == Satisfied
  {
    if criteria == [] {
      return Incomplete;
    }
    var allSatisfied := true;
    for i := 0 to |criteria|
      invariant forall k :: 0 <= k < i ==> criteria[k].held.state != Blocked
      invariant allSatisfied <==> forall k :: 0 <= k < i ==> criteria[k].held.state == Satisfied
    {
      match criteria[i].held.state
      case Blocked => return BlockedStatus;
      case Satisfied =>
      case _ => allSatisfied := false;
    }
    status := if allSatisfied then Complete else Incomplete;
  }

  type Resolver = Option<(string, string) -> Answer>

  /** What the resolver of a call says about an item. */
  function AnswerFor(resolver: Resolver, runId: string, item: Prepared): Answer {
    if !NeedsEvidence(item) then Skipped
    else match resolver
         case None => NoResolver
         case Some(ask) => ask(runId, item.held.evidence)
  }

  function AnswersFor(resolver: Resolver, runId: string, items: seq<Prepared>): seq<Answer> {
    if items == [] then [] else [AnswerFor(resolver, runId, items[0])] + AnswersFor(resolver, runId, items[1..])
  }

  lemma {:induction false} AnswersForLength(resolver: Resolver, runId: string, items: seq<Prepared>)
    ensures |AnswersFor(resolver, runId, items)| == |items|
    ensures forall i :: 0 <= i < |items| ==> AnswersFor(resolver, runId, items)[i] == AnswerFor(resolver, runId, items[i])
  {
    if items != [] {
      AnswersForLength(resolver, runId, items[1..]);
    }
  }

  /** The evidence that a claim cites was found by the call's resolver, for this run. */
  predicate Confirmed(runId: string, claim: Claim, resolver: Resolver) {
    claim.state == Satisfied && claim.evidence != "" ==> resolver.Some? && resolver.value(runId, claim.evidence) == Found
  }

  /** An undisturbed call succeeds: it names the current revision, every claim is acceptable, none twice,
      and all evidence is found. */
  ghost predicate Accepted(c: Contract, expected: nat, claims: seq<Claim>, resolver: Resolver, receipt: string -> string) {
    && expected == c.revision != MAX_UINT64 && 0 < |claims| <= MAX_CRITERIA && DistinctIds(claims)
    && forall claim :: claim in claims ==> Acceptable(c, claim, receipt) && Confirmed(c.runId, claim, resolver)
  }

  predicate NamesEvidence(runId: string, claim: Claim, resolver: Resolver, e: Error) {
    e == Error(if resolver.Some? && resolver.value(runId, claim.evidence) == NotFound then EvidenceMismatch else EvidenceResolver,
               "evidenceDigest", claim.criterionId)
  }

  /** The first claim whose evidence is not found, and why. */
  ghost predicate Unconfirmed(runId: string, claims: seq<Claim>, resolver: Resolver, i: nat, e: Error)
    requires i < |claims|
  {
    && (forall j :: 0 <= j < i ==> Confirmed(runId, claims[j], resolver)) && !Confirmed(runId, claims[i], resolver)
    && NamesEvidence(runId, claims[i], resolver, e)
  }

  /** Why an undisturbed call fails, in the order of its checks. */
  ghost predicate Rejected(c: Contract, expected: nat, claims: seq<Claim>, resolver: Resolver, receipt: string -> string, e: Error) {
    if expected != c.revision then e == Error(StaleRevision, "expectedRevision", "")
    else if c.revision == MAX_UINT64 then e == Error(RevisionExhausted, "revision", "")
    else if claims == [] then e == Error(EmptyClaims, "claims", "")
    else if |claims| > MAX_CRITERIA then e == Error(FieldTooLarge, "claims", "")
    else if DistinctIds(claims) && forall claim :: claim in claims ==> Acceptable(c, claim, receipt) then
      exists i :: 0 <= i < |claims| && Unconfirmed(c.runId, claims, resolver, i, e)
    else exists i :: 0 <= i < |claims| && FirstFault(c, claims, receipt, i, e)
  }

  ghost predicate FirstVerdict(items: seq<Prepared>, answers: seq<Answer>, i: nat, e: Error)
    requires i < |items| <= |answers|
  {
    Verdict(items[i], answers[i]) == Some(e) && forall j :: 0 <= j < i ==> Verdict(items[j], answers[j]) == None
  }

  lemma VerdictLater(items: seq<Prepared>, answers: seq<Answer>, i: nat, e: Error)
    requires i + 1 < |items| <= |answers| && Verdict(items[0], answers[0]) == None
    requires FirstVerdict(items[1..], answers[1..], i, e)
    ensures FirstVerdict(items, answers, i + 1, e)
  {
    hide Verdict;
    forall j | 0 <= j < i + 1 ensures Verdict(items[j], answers[j]) == None {
      if j > 0 {
        assert Verdict(items[1..][j - 1], answers[1..][j - 1]) == None;
      }
    }
  }

  lemma {:induction false} EvidenceDecides(items: seq<Prepared>, answers: seq<Answer>)
    requires |items| <= |answers|
    ensures EvidencePhase(items, answers) == None ==> forall i :: 0 <= i < |items| ==> Verdict(items[i], answers[i]) == None
    ensures EvidencePhase(items, answers).Some? ==>
              exists i :: 0 <= i < |items| && FirstVerdict(items, answers, i, EvidencePhase(items, answers).value)
    decreases |items|
  {
    hide Verdict;
    if items != [] {
      if Verdict(items[0], answers[0]).Some? {
        assert FirstVerdict(items, answers, 0, Verdict(items[0], answers[0]).value);
      } else {
        EvidenceDecides(items[1..], answers[1..]);
        assert forall i :: 0 < i < |items| ==> items[i] == items[1..][i - 1] && answers[i] == answers[1..][i - 1];
        if EvidencePhase(items, answers).Some? {
          var e := EvidencePhase(items, answers).value;
          assert EvidencePhase(items[1..], answers[1..]) == Some(e);
          var i :| 0 <= i < |items[1..]| && FirstVerdict(items[1..], answers[1..], i, e);
          VerdictLater(items, answers, i, e);
        }
      }
    }
  }

  /** The verdict on an item is about the evidence that its claim cites. */
  predicate VerdictMeans(runId: string, claim: Claim, answer: Answer, item: Prepared, resolver: Resolver) {
    var verdict := Verdict(item, answer);
    if verdict == None then Confirmed(runId, claim, resolver)
    else !Confirmed(runId, claim, resolver) && NamesEvidence(runId, claim, resolver, verdict.value)
  }

  lemma VerdictIs(runId: string, claim: Claim, item: Prepared, resolver: Resolver, receipt: string -> string)
    requires item.id == claim.criterionId && HoldsClaim(item.held, claim, receipt)
    ensures VerdictMeans(runId, claim, AnswerFor(resolver, runId, item), item, resolver)
  {
  }

  /** The verdicts on the items of a batch are about the evidence that its claims cite. */
  lemma EvidenceMeans(c: Contract, claims: seq<Claim>, items: seq<Prepared>, resolver: Resolver, receipt: string -> string)
    requires Indexed(c) && PrepareClaims(c, claims, receipt) == Ok(items)
    ensures |AnswersFor(resolver, c.runId, items)| == |items|
    ensures var refused := EvidencePhase(items, AnswersFor(resolver, c.runId, items));
            if refused == None then forall claim :: claim in claims ==> Confirmed(c.runId, claim, resolver)
            else exists i :: 0 <= i < |claims| && Unconfirmed(c.runId, claims, resolver, i, refused.value)
  {
    hide PrepareClaims, Verdict, HoldsClaim, AnswerFor, Confirmed, Carries, EvidencePhase, NamesEvidence;
    var answers := AnswersFor(resolver, c.runId, items);
    AnswersForLength(resolver, c.runId, items);
    BatchTargets(c, claims, items, receipt);
    EvidenceDecides(items, answers);
    forall i | 0 <= i < |items| ensures VerdictMeans(c.runId, claims[i], answers[i], items[i], resolver) {
      VerdictIs(c.runId, claims[i], items[i], resolver, receipt);
    }
    if EvidencePhase(items, answers).Some? {
      var e := EvidencePhase(items, answers).value;
      var i :| 0 <= i < |items| && FirstVerdict(items, answers, i, e);
      assert VerdictMeans(c.runId, claims[i], answers[i], items[i], resolver);
      forall j | 0 <= j < i ensures Confirmed(c.runId, claims[j], resolver) {
        assert VerdictMeans(c.runId, claims[j], answers[j], items[j], resolver);
      }
      assert Unconfirmed(c.runId, claims, resolver, i, e);
    } else {
      forall claim | claim in claims ensures Confirmed(c.runId, claim, resolver) {
        var i :| 0 <= i < |claims| && claims[i] == claim;
        assert VerdictMeans(c.runId, claims[i], answers[i], items[i], resolver);
      }
    }
  }

  /** Items already prepared, in front of the outcome for the remaining claims. */
  ghost function Joined(items: seq<Prepared>, rest: Result<seq<Prepared>, Error>): Result<seq<Prepared>, Error> {
    match rest
    case Err(e) => Err(e)
    case Ok(more) => Ok(items + more)
  }

  lemma JoinedNothing(rest: Result<seq<Prepared>, Error>)
    ensures Joined([], rest) == rest
  {
    if rest.Ok? {
      assert [] + rest.value == rest.value;
    }
  }

  lemma PrepareStart(c: Contract, claims: seq<Claim>, receipt: string -> string)
    requires 0 < |claims| <= MAX_CRITERIA
    ensures PrepareClaims(c, claims, receipt) == Joined([], PrepareRest(c, claims[0..], map[], receipt))
  {
    hide PrepareRest;
    assert claims[0..] == claims;
    JoinedNothing(PrepareRest(c, claims, map[], receipt));
  }

  lemma PrepareEnd(c: Contract, items: seq<Prepared>, seen: map<string, Prepared>, receipt: string -> string)
    ensures Joined(items, PrepareRest(c, [], seen, receipt)) == Ok(items)
  {
    assert items + [] == items;
  }

  lemma PrepareStep(c: Contract, claims: seq<Claim>, i: nat, seen: map<string, Prepared>, items: seq<Prepared>, receipt: string -> string)
    requires i < |claims|
    ensures var prepare := PrepareClaim(c, claims[i], receipt);
            Joined(items, PrepareRest(c, claims[i..], seen, receipt)) ==
            if prepare.Err? then Err(prepare.error)
            else if prepare.value.id in seen then
              Err(Error(if seen[prepare.value.id] == prepare.value then DuplicateClaim else ConflictingClaim, "claims", prepare.value.id))
            else Joined(items + [prepare.value], PrepareRest(c, claims[i + 1..], seen[prepare.value.id := prepare.value], receipt))
  {
    hide PrepareClaim;
    assert claims[i..][0] == claims[i] && claims[i..][1..] == claims[i + 1..];
    var prepare := PrepareClaim(c, claims[i], receipt);
    if prepare.Ok? && prepare.value.id !in seen {
      var item := prepare.value;
      var rest := PrepareRest(c, claims[i + 1..], seen[item.id := item], receipt);
      if rest.Ok? {
        assert items + ([item] + rest.value) == items + [item] + rest.value;
      }
    }
  }

  lemma UnconfirmedClaim(runId: string, claims: seq<Claim>, resolver: Resolver)
    ensures (exists i, e :: 0 <= i < |claims| && Unconfirmed(runId, claims, resolver, i, e)) ==>
              exists claim :: claim in claims && !Confirmed(runId, claim, resolver)
  {
    forall i, e | 0 <= i < |claims| && Unconfirmed(runId, claims, resolver, i, e)
      ensures exists claim :: claim in claims && !Confirmed(runId, claim, resolver)
    {
      assert claims[i] in claims;
    }
  }

  ghost predicate Refuses(c: Contract, expected: nat, claims: seq<Claim>, resolver: Resolver, receipt: string -> string, e: Error) {
    !Accepted(c, expected, claims, resolver, receipt) && Rejected(c, expected, claims, resolver, receipt, e)
  }

  /** What the phases of an undisturbed call come to. */
  lemma CallMeans(c: Contract, expected: nat, claims: seq<Claim>, resolver: Resolver, receipt: string -> string)
    requires Indexed(c)
    ensures var prepared := ReadPhase(c, expected, claims, receipt);
            if prepared.Err? then Refuses(c, expected, claims, resolver, receipt, prepared.error)
            else
              && |AnswersFor(resolver, c.runId, prepared.value)| == |prepared.value|
              && var refused := EvidencePhase(prepared.value, AnswersFor(resolver, c.runId, prepared.value));
              if refused.Some? then Refuses(c, expected, claims, resolver, receipt, refused.value)
              else Accepted(c, expected, claims, resolver, receipt) && Applied(c, Committed(c, prepared.value), claims, receipt)
  {
    hide PrepareClaims, Acceptable, FirstFault, Unconfirmed, Confirmed, Applied, DistinctIds, Committed, EvidencePhase;
    BatchIffAcceptable(c, claims, receipt);
    if expected == c.revision != MAX_UINT64 {
      var prepared := PrepareClaims(c, claims, receipt);
      if prepared.Err? {
        BatchFault(c, claims, receipt);
      } else {
        CommitApplies(c, claims, prepared.value, receipt);
        EvidenceMeans(c, claims, prepared.value, resolver, receipt);
        UnconfirmedClaim(c.runId, claims, resolver);
      }
    }
  }

  class CompletionContract {
    const runId: string
    var criteria: seq<Criterion>
    var index: map<string, nat>
    var revision: nat

    ghost function Abstract(): Contract
      reads this
    {
      Contract(runId, criteria, index, revision)
    }

    constructor (runId: string, criteria: seq<Criterion>, index: map<string, nat>)
      ensures Abstract() == Contract(runId, criteria, index, 0)
    {
      this.runId, this.criteria, this.index, this.revision := runId, criteria, index, 0;
    }

    /** prepareClaimsLocked */
    method PrepareClaimsLocked(claims: seq<Claim>, receipt: string -> string) returns (result: Result<seq<Prepared>, Error>)
      ensures result == PrepareClaims(Abstract(), claims, receipt)
    {
      if claims == [] {
        return Err(Error(EmptyClaims, "claims", ""));
      }
      if |claims| > MAX_CRITERIA {
        return Err(Error(FieldTooLarge, "claims", ""));
      }
      var c := Contract(runId, criteria, index, revision);
      hide PrepareClaim, PrepareRest, PrepareClaims, Joined;
      PrepareStart(c, claims, receipt);
      var prepared: seq<Prepared> := [];
      var seen: map<string, Prepared> := map[];
      var i := 0;
      while i < |claims|
        invariant 0 <= i <= |claims|
        invariant PrepareClaims(c, claims, receipt) == Joined(prepared, PrepareRest(c, claims[i..], seen, receipt))
      {
        PrepareStep(c, claims, i, seen, prepared, receipt);
        var prepare := PrepareClaim(c, claims[i], receipt);
        if prepare.Err? {
          return Err(prepare.error);
        }
        var item := prepare.value;
        if item.id in seen {
          return Err(Error(if seen[item.id] == item then DuplicateClaim else ConflictingClaim, "claims", item.id));
        }
        seen := seen[item.id := item];
        prepared := prepared + [item];
        i := i + 1;
      }
      assert claims[i..] == [];
      PrepareEnd(c, prepared, seen, receipt);
      result := Ok(prepared);
    }

    /** The unlocked phase: asks for the evidence of every claim that carries some. */
    method ResolveEvidence(prepared: seq<Prepared>, resolver: Resolver) returns (error: Option<Error>)
      ensures |AnswersFor(resolver, runId, prepared)| == |prepared|
      ensures error == EvidencePhase(prepared, AnswersFor(resolver, runId, prepared))
    {
      ghost var answers := AnswersFor(resolver, runId, prepared);
      AnswersForLength(resolver, runId, prepared);
      for i := 0 to |prepared|
        invariant forall k :: 0 <= k < i ==> Verdict(prepared[k], answers[k]) == None
      {
        if !NeedsEvidence(prepared[i]) {
          continue;
        }
        error := Verdict(prepared[i], AnswerFor(resolver, runId, prepared[i]));
        if error.Some? {
          EvidenceSoFar(prepared, answers, i);
          return;
        }
      }
      EvidenceSoFar(prepared, answers, |prepared|);
      error := None;
    }

    /** The phase under the write lock. */
    method CommitClaims(expected: nat, prepared: seq<Prepared>) returns (error: Option<Error>)
      requires forall i :: 0 <= i < |prepared| ==> prepared[i].at < |criteria|
      modifies this
      ensures match CommitPhase(old(Abstract()), expected, prepared)
              case Err(e) => error == Some(e) && Abstract() == old(Abstract())
              case Ok(d) => error == None && Abstract() == d
    {
      if revision != expected {
        return Some(Error(StaleRevision, "expectedRevision", ""));
      }
      var nextRevision := revision + 1;
      var i := 0;
      assert prepared[0..] == prepared;
      while i < |prepared|
        invariant 0 <= i <= |prepared| && |criteria| == |old(criteria)|
        invariant index == old(index) && revision == old(revision)
        invariant Store(criteria, prepared[i..], nextRevision) == Store(old(criteria), prepared, nextRevision)
      {
        var item := prepared[i];
        assert prepared[i..][0] == item && prepared[i..][1..] == prepared[i + 1..];
        criteria := criteria[item.at := Criterion(criteria[item.at].identity, item.held, nextRevision)];
        i := i + 1;
      }
      revision := nextRevision;
      error := None;
    }

    /** ApplyClaims with nothing else running. */
    method ApplyClaims(expected: nat, claims: seq<Claim>, resolver: Resolver, receipt: string -> string)
      returns (error: Option<Error>)
      requires Indexed(Abstract())
      modifies this
      ensures error == None <==> Accepted(old(Abstract()), expected, claims, resolver, receipt)
      ensures error == None ==> Applied(old(Abstract()), Abstract(), claims, receipt)
      ensures error.Some? ==> Abstract() == old(Abstract()) && Rejected(Abstract(), expected, claims, resolver, receipt, error.value)
      ensures match ReadPhase(old(Abstract()), expected, claims, receipt)
              case Err(e) => error == Some(e)
              case Ok(items) =>
                Alone(old(Abstract()), expected, claims, AnswersFor(resolver, runId, items), receipt,
                      if error == None then Ok(Abstract()) else Err(error.value))
    {
      hide PrepareClaims, EvidencePhase, Store, Accepted, Rejected, Applied, HoldsClaim, Carries;
      CallMeans(Abstract(), expected, claims, resolver, receipt);
      if expected != revision {
        return Some(Error(StaleRevision, "expectedRevision", ""));
      }
      if revision == MAX_UINT64 {
        return Some(Error(RevisionExhausted, "revision", ""));
      }
      var result := PrepareClaimsLocked(claims, receipt);
      if result.Err? {
        return Some(result.error);
      }
      BatchTargets(Abstract(), claims, result.value, receipt);
      error := ResolveEvidence(result.value, resolver);
      if error == None {
        error := CommitClaims(expected, result.value);
      }
    }
  }
}
