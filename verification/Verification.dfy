/** The verify pool and the automatic decision, end to end: an automatic allow or deny means
    that a second, different provider agreed with the classification it rests on. */
module Verification {
  import opened Basics
  import opened Batching
  import opened Analysis
  import opened Dispatcher

  // ----- What must be verified, and what agreement means -----

  datatype Pool = Pool(verifyAutomatic: bool, securityAtLeast: int, breakageAtLeast: int, samplePercent: int)

  predicate Decisive(p: Policy) { p == Allow || p == Deny }

  /** bucket is the domain's hash reduced to a number. */
  predicate RequiresVerification(c: Classification, pool: Pool, bucket: Domain -> nat) {
    || c.security >= pool.securityAtLeast
    || c.breakage >= pool.breakageAtLeast
    || (pool.verifyAutomatic && !c.needsReview && Decisive(c.policy))
    || bucket(c.domain) % 100 < MinInt(100, MaxInt(0, pool.samplePercent))
  }

  predicate Within20(a: int, b: int) { -20 <= a - b <= 20 }

  predicate SameSet(a: seq<string>, b: seq<string>) {
    (forall t :: t in a ==> t in b) && (forall t :: t in b ==> t in a)
  }

  predicate Agree(a: Classification, b: Classification) {
    && a.policy == b.policy && a.category == b.category && SameSet(a.tags, b.tags)
    && Within20(a.security, b.security) && Within20(a.breakage, b.breakage)
  }

  // ----- The verify dispatch -----

  function ToVerify(cs: seq<Classification>, pool: Pool, bucket: Domain -> nat): seq<Domain> {
    if cs == [] then []
    else (if RequiresVerification(cs[0], pool, bucket) then [cs[0].domain] else []) + ToVerify(cs[1..], pool, bucket)
  }

  const UNAVAILABLE := "Independent provider verification was unavailable."
  const DISAGREED := "Independent provider verification disagreed with the primary result."

  function MarkOne(c: Classification, unverified: seq<Domain>): Classification {
    if c.domain in unverified then
      c.(needsReview := true, reviewReason := if c.reviewReason != "" then c.reviewReason else UNAVAILABLE)
    else c
  }

  function MarkUnavailable(cs: seq<Classification>, unverified: seq<Domain>): seq<Classification> {
    if cs == [] then [] else [MarkOne(cs[0], unverified)] + MarkUnavailable(cs[1..], unverified)
  }

  /** The last entry under a domain, as a dictionary built from the list would hold it. */
  function Find(cs: seq<Classification>, d: Domain): Option<Classification> {
    if cs == [] then None
    else
      var later := Find(cs[1..], d);
      if later.Some? then later else if cs[0].domain == d then Some(cs[0]) else None
  }

  function CompareOne(c: Classification, secondary: seq<Classification>): Classification {
    var other := Find(secondary, c.domain);
    if other.Some? && !Agree(c, other.value) then c.(needsReview := true, reviewReason := DISAGREED) else c
  }

  function CompareAll(cs: seq<Classification>, secondary: seq<Classification>): seq<Classification> {
    if cs == [] then [] else [CompareOne(cs[0], secondary)] + CompareAll(cs[1..], secondary)
  }

  /** The first candidate in verification order that is not the primary provider. */
  function Verifier(order: seq<string>, primaryId: string): (v: Option<string>)
    ensures v.None? ==> forall id :: id in order ==> id == primaryId
    ensures v.Some? ==>
              && v.value in order && v.value != primaryId
              && exists k :: 0 <= k < |order| && order[k] == v.value && forall j :: 0 <= j < k ==> order[j] == primaryId
  {
    if order == [] then None
    else if order[0] != primaryId then Some(order[0])
    else
      assert order == [order[0]] + order[1..];
      var later := Verifier(order[1..], primaryId);
      assert later.Some? ==> exists k :: 0 <= k < |order[1..]| && order[k + 1] == order[1..][k] == later.value
                                         && forall j :: 0 <= j < k ==> order[1..][j] == primaryId;
      later
  }

  datatype Verified =
    | Verified(primary: seq<Classification>, secondary: seq<Classification>, verifierId: string)
    | VerifyStopped

  /** primary is what the primary provider classified; run executes a verifier. */
  function Verify(primary: seq<Classification>, primaryId: string, order: seq<string>, pool: Pool,
                  bucket: Domain -> nat, run: (string, seq<Domain>) -> Execution): Verified
  {
    var domains := ToVerify(primary, pool, bucket);
    if domains == [] then Verified(primary, [], "")
    else
      match Verifier(order, primaryId)
      case None => Verified(MarkUnavailable(primary, domains), [], "")
      case Some(id) =>
        match run(id, domains)
        case Whole(cs, _) => Verified(CompareAll(primary, cs), cs, id)
        case Partial(cs, _, failed, _) => Verified(CompareAll(MarkUnavailable(primary, failed), cs), cs, id)
        case Raised(_) => Verified(MarkUnavailable(primary, domains), [], "")
        case Aborted => VerifyStopped
  }

  method CompareResults(primary: seq<Classification>, secondary: seq<Classification>)
    returns (updated: seq<Classification>)
    ensures updated == CompareAll(primary, secondary)
  {
    updated := [];
    for i := 0 to |primary|
      invariant CompareAll(primary, secondary) == updated + CompareAll(primary[i..], secondary)
    {
      assert primary[i..][1..] == primary[i + 1..];
      updated := updated + [CompareOne(primary[i], secondary)];
    }
    assert updated + [] == updated;
  }

  method DispatchVerify(primary: seq<Classification>, primaryId: string, order: seq<string>, pool: Pool,
                        bucket: Domain -> nat, run: (string, seq<Domain>) -> Execution) returns (v: Verified)
    ensures v == Verify(primary, primaryId, order, pool, bucket, run)
  {
    var domains := ToVerify(primary, pool, bucket);
    if domains == [] {
      return Verified(primary, [], "");
    }
    var verifier := Verifier(order, primaryId);
    if verifier.None? {
      return Verified(MarkUnavailable(primary, domains), [], "");
    }
    var marked := primary;
    var secondary: seq<Classification>;
    match run(verifier.value, domains) {
      case Whole(cs, _) => secondary := cs;
      case Partial(cs, _, failed, _) =>
        secondary := cs;
        marked := MarkUnavailable(primary, failed);
      case Raised(_) => return Verified(MarkUnavailable(primary, domains), [], "");
      case Aborted => return VerifyStopped;
    }
    var updated := CompareResults(marked, secondary);
    v := Verified(updated, secondary, verifier.value);
  }

  predicate LastOf(cs: seq<Classification>, d: Domain, j: nat) {
    j < |cs| && cs[j].domain == d && forall k :: j < k < |cs| ==> cs[k].domain != d
  }

  lemma {:induction false} FindFinds(cs: seq<Classification>, d: Domain)
    ensures match Find(cs, d)
            case Some(c) => c in cs && exists j: nat :: LastOf(cs, d, j) && cs[j] == c
            case None => forall c :: c in cs ==> c.domain != d
    ensures d in Domains(cs) ==> Find(cs, d).Some?
  {
    if cs != [] {
      FindFinds(cs[1..], d);
      if Find(cs[1..], d).Some? {
        var j: nat :| LastOf(cs[1..], d, j) && cs[1..][j] == Find(cs[1..], d).value;
        assert LastOf(cs, d, j + 1);
      } else if cs[0].domain == d {
        assert LastOf(cs, d, 0);
      }
    }
  }

  lemma {:induction false} MarkedEach(cs: seq<Classification>, unverified: seq<Domain>)
    ensures var out := MarkUnavailable(cs, unverified);
            |out| == |cs| && forall i :: 0 <= i < |cs| ==> out[i] == MarkOne(cs[i], unverified)
  {
    if cs != [] {
      MarkedEach(cs[1..], unverified);
    }
  }

  lemma {:induction false} ComparedEach(cs: seq<Classification>, secondary: seq<Classification>)
    ensures var out := CompareAll(cs, secondary);
            |out| == |cs| && forall i :: 0 <= i < |cs| ==> out[i] == CompareOne(cs[i], secondary)
  {
    if cs != [] {
      ComparedEach(cs[1..], secondary);
    }
  }

  /** High risks, an automatic action in a pool that verifies those, or the sample: a share of the
      hash buckets. */
  predicate MustVerify(c: Classification, pool: Pool, bucket: Domain -> nat) {
    || pool.securityAtLeast <= c.security || pool.breakageAtLeast <= c.breakage
    || (c.policy in {Allow, Deny} && !c.needsReview && pool.verifyAutomatic)
    || bucket(c.domain) % 100 < pool.samplePercent
  }

  ghost predicate Listed(primary: seq<Classification>, pool: Pool, bucket: Domain -> nat, d: Domain) {
    exists c :: c in primary && c.domain == d && MustVerify(c, pool, bucket)
  }

  lemma {:induction false} RequiredAreListed(cs: seq<Classification>, pool: Pool, bucket: Domain -> nat)
    ensures forall d :: d in ToVerify(cs, pool, bucket) <==> Listed(cs, pool, bucket, d)
  {
    if cs != [] {
      RequiredAreListed(cs[1..], pool, bucket);
      forall d ensures Listed(cs, pool, bucket, d) <==>
                       (cs[0].domain == d && MustVerify(cs[0], pool, bucket)) || Listed(cs[1..], pool, bucket, d)
      {
        assert cs[0] in cs && forall c :: c in cs <==> c == cs[0] || c in cs[1..];
      }
      assert RequiresVerification(cs[0], pool, bucket) == MustVerify(cs[0], pool, bucket);
    }
  }

  /** Another policy, category or set of tags, or a risk more than 20 apart. */
  ghost predicate Differ(a: Classification, b: Classification) {
    || a.policy != b.policy || a.category != b.category || (exists t :: (t in a.tags) != (t in b.tags))
    || a.security > b.security + 20 || b.security > a.security + 20
    || a.breakage > b.breakage + 20 || b.breakage > a.breakage + 20
  }

  /** The verifier's last word on the domain differs. */
  ghost predicate Objects(cs: seq<Classification>, c: Classification) {
    exists j: nat :: LastOf(cs, c.domain, j) && Differ(c, cs[j])
  }

  /** Whether the verifier's execution leaves the classification unconfirmed, and why. */
  datatype Doubt = Clear | Unavailable | Disagreed

  ghost function DoubtAbout(c: Classification, e: Option<Execution>): Doubt {
    match e
    case None => Unavailable
    case Some(Whole(cs, _)) => if Objects(cs, c) then Disagreed else Clear
    case Some(Partial(cs, _, failed, _)) =>
      if Objects(cs, c) then Disagreed else if c.domain in failed then Unavailable else Clear
    case Some(_) => Unavailable
  }

  /** What becomes of a classification under that doubt. */
  predicate Doubted(c: Classification, after: Classification, doubt: Doubt) {
    match doubt
    case Clear => after == c
    case Unavailable =>
      after == c.(needsReview := true, reviewReason := if c.reviewReason == "" then UNAVAILABLE else c.reviewReason)
    case Disagreed => after == c.(needsReview := true, reviewReason := DISAGREED)
  }

  function Execute(id: Option<string>, given: seq<Domain>, run: (string, seq<Domain>) -> Execution): Option<Execution> {
    if id.Some? then Some(run(id.value, given)) else None
  }

  lemma ComparedIsDoubted(c: Classification, cs: seq<Classification>, failed: seq<Domain>, usage: Usage, fault: Fault)
    ensures Doubted(c, CompareOne(c, cs), DoubtAbout(c, Some(Whole(cs, usage))))
    ensures Doubted(c, CompareOne(MarkOne(c, failed), cs), DoubtAbout(c, Some(Partial(cs, usage, failed, fault))))
  {
    FindFinds(cs, c.domain);
    var other := Find(cs, c.domain);
    if other.Some? {
      var j: nat :| LastOf(cs, c.domain, j) && cs[j] == other.value;
      assert forall k: nat :: LastOf(cs, c.domain, k) ==> k == j;
      assert Agree(c, other.value) <==> !Differ(c, other.value);
      assert Agree(MarkOne(c, failed), other.value) <==> Agree(c, other.value);
    }
  }

  /** Exactly what verification makes of each primary classification: one that need not be verified,
      or that the verifier's classification confirms, is returned unchanged; review is asked for when
      no verifier is configured, when it fails on the domain, and when it differs. */
  lemma VerifiedExactly(primary: seq<Classification>, i: nat, primaryId: string, order: seq<string>, pool: Pool,
                        bucket: Domain -> nat, run: (string, seq<Domain>) -> Execution)
    requires i < |primary|
    requires forall id, given {:trigger run(id, given)} :: Accounts(given, run(id, given))
    ensures var v := Verify(primary, primaryId, order, pool, bucket, run);
            var e := Execute(Verifier(order, primaryId), ToVerify(primary, pool, bucket), run);
            v.Verified? ==>
              && |v.primary| == |primary|
              && Doubted(primary[i], v.primary[i],
                         if Listed(primary, pool, bucket, primary[i].domain) then DoubtAbout(primary[i], e) else Clear)
  {
    var domains := ToVerify(primary, pool, bucket);
    var c := primary[i];
    RequiredAreListed(primary, pool, bucket);
    MarkedEach(primary, domains);
    if domains != [] && Verifier(order, primaryId).Some? {
      var e := run(Verifier(order, primaryId).value, domains);
      assert Accounts(domains, e);
      if e.Whole? || e.Partial? {
        UpdatedIsDoubted(primary, i, e);
        if c.domain !in domains {
          UnlistedIsClear(domains, c, e);
        }
      }
    }
  }

  lemma UpdatedIsDoubted(primary: seq<Classification>, i: nat, e: Execution)
    requires i < |primary| && (e.Whole? || e.Partial?)
    ensures var updated := CompareAll(if e.Partial? then MarkUnavailable(primary, e.failed) else primary, e.results);
            |updated| == |primary| && Doubted(primary[i], updated[i], DoubtAbout(primary[i], Some(e)))
  {
    match e
    case Whole(cs, usage) =>
      ComparedEach(primary, cs);
      ComparedIsDoubted(primary[i], cs, [], usage, PermanentFault);
    case Partial(cs, usage, failed, fault) =>
      MarkedEach(primary, failed);
      ComparedEach(MarkUnavailable(primary, failed), cs);
      ComparedIsDoubted(primary[i], cs, failed, usage, fault);
  }

  /** A verifier says nothing about domains it was not given. */
  lemma UnlistedIsClear(given: seq<Domain>, c: Classification, e: Execution)
    requires Accounts(given, e) && (e.Whole? || e.Partial?) && c.domain !in given
    ensures DoubtAbout(c, Some(e)) == Clear
  {
    var cs := e.results;
    DomainsAt(cs);
    forall j | 0 <= j < |cs| ensures cs[j].domain in given {
      assert Domains(cs)[j] == cs[j].domain;
      assert cs[j].domain in Domains(cs);
      assert e.Partial? ==> cs[j].domain in Domains(cs) + e.failed;
    }
    if e.Partial? {
      assert forall d :: d in e.failed ==> d in Domains(cs) + e.failed;
    }
  }

  /** A different provider's classification of the same domain concurs with this one. */
  ghost predicate Confirmed(c: Classification, v: Verified, primaryId: string)
    requires v.Verified?
  {
    v.verifierId != primaryId && exists other :: other in v.secondary && other.domain == c.domain && !Differ(c, other)
  }

  /** The i-th dispatched result only ever adds review to the primary's i-th classification,
      and without review it is unchanged; if it had to be verified, it is then confirmed. */
  lemma VerifyOne(primary: seq<Classification>, i: nat, primaryId: string, order: seq<string>, pool: Pool,
                  bucket: Domain -> nat, run: (string, seq<Domain>) -> Execution)
    requires i < |primary|
    requires forall id, given {:trigger run(id, given)} :: Accounts(given, run(id, given))
    ensures var v := Verify(primary, primaryId, order, pool, bucket, run);
            v.Verified? ==>
              && |v.primary| == |primary|
              && v.primary[i].(needsReview := primary[i].needsReview, reviewReason := primary[i].reviewReason)
                 == primary[i]
              && (primary[i].needsReview ==> v.primary[i].needsReview)
              && (!v.primary[i].needsReview ==> v.primary[i] == primary[i])
              && (!v.primary[i].needsReview && MustVerify(primary[i], pool, bucket) ==>
                    Confirmed(primary[i], v, primaryId))
  {
    var c, given := primary[i], ToVerify(primary, pool, bucket);
    VerifiedExactly(primary, i, primaryId, order, pool, bucket, run);
    RequiredAreListed(primary, pool, bucket);
    if MustVerify(c, pool, bucket) && Verifier(order, primaryId).Some? {
      assert Listed(primary, pool, bucket, c.domain);
      var e := run(Verifier(order, primaryId).value, given);
      if (e.Whole? || e.Partial?) && DoubtAbout(c, Some(e)) == Clear {
        ClearIsConfirmed(given, c, e);
      }
    }
  }

  lemma ClearIsConfirmed(given: seq<Domain>, c: Classification, e: Execution)
    requires Accounts(given, e) && (e.Whole? || e.Partial?) && c.domain in given
    requires DoubtAbout(c, Some(e)) == Clear
    ensures exists other :: other in e.results && other.domain == c.domain && !Differ(c, other)
  {
    assert c.domain in Domains(e.results) by {
      if e.Partial? {
        assert c.domain in Domains(e.results) + e.failed;
      }
    }
    FindFinds(e.results, c.domain);
  }

  // ----- Guards before the decision -----

  /** The compatibility profile that matched the domain, if any. */
  datatype Profile = Profile(name: string, role: ServiceRole, minBreakage: int, denyNeedsReview: bool, reason: string)

  function RoleRank(r: ServiceRole): nat {
    match r
    case Core => 3
    case Shared => 2
    case OptionalRole => 1
    case UnknownRole => 0
  }

  function StrongerRole(current: ServiceRole, profile: ServiceRole): ServiceRole {
    if RoleRank(profile) > RoleRank(current) then profile else current
  }

  predicate At(text: string, part: string, i: nat) {
    i + |part| <= |text| && text[i..i + |part|] == part
  }

  predicate Contains(text: string, part: string) {
    exists i: nat :: i <= |text| && At(text, part, i)
  }

  function JoinReasons(first: string, second: string): string {
    if first == "" then second else if Contains(first, second) then first else first + " " + second
  }

  /** alarm is the review reason of a behavior-change report that asks for review. */
  function BehaviorGuard(c: Classification, alarm: Option<string>): Classification {
    match alarm
    case None => c
    case Some(reason) => c.(needsReview := true, reviewReason := JoinReasons(c.reviewReason, reason))
  }

  function CompatibilityGuard(c: Classification, matched: Option<Profile>, alarm: Option<string>): Classification {
    match matched
    case None => BehaviorGuard(c, alarm)
    case Some(p) =>
      var review := p.denyNeedsReview && c.policy == Deny;
      BehaviorGuard(
        c.(service := if c.service != "" then c.service else p.name,
           role := StrongerRole(c.role, p.role),
           breakage := MaxInt(c.breakage, p.minBreakage),
           needsReview := c.needsReview || review,
           reviewReason := if review then JoinReasons(c.reviewReason, p.reason) else c.reviewReason),
        alarm)
  }

  // ----- The automatic decision -----

  datatype Mode = Manual | Hybrid | Auto

  datatype TagPolicy = TagAllow | TagDeny | TagReview | TagInvalid

  datatype LlmOptions = LlmOptions(mode: Mode, minConfidence: real, tagPolicies: map<string, TagPolicy>,
                                   requireResearch: bool, simulation: bool)

  function EffectiveTags(c: Classification): seq<string> {
    if c.tags != [] then c.tags else [c.category]
  }

  function PolicyOf(o: LlmOptions, tag: string): TagPolicy {
    if tag in o.tagPolicies then o.tagPolicies[tag] else TagReview
  }

  function AsPolicy(p: TagPolicy): Policy {
    match p
    case TagAllow => Allow
    case TagDeny => Deny
    case _ => ManualReview
  }

  datatype Decision = Decision(action: Option<Policy>, reviewed: bool)

  const NO_ACTION := Decision(None, false)
  const REVIEW := Decision(None, true)

  function Resolve(c: Classification, evidence: int, o: LlmOptions): Decision {
    var tags := EffectiveTags(c);
    if o.mode == Manual then NO_ACTION
    else if c.needsReview then REVIEW
    else if c.confidence < o.minConfidence then NO_ACTION
    else if c.role == Core || c.role == Shared then REVIEW
    else if c.breakage >= 50 then REVIEW
    else if exists t :: t in tags && PolicyOf(o, t) == TagInvalid then REVIEW
    else if exists t :: t in tags && PolicyOf(o, t) == TagReview then REVIEW
    else if exists t, u :: t in tags && u in tags && PolicyOf(o, t) != PolicyOf(o, u) then REVIEW
    else
      var policy := AsPolicy(PolicyOf(o, tags[0]));
      if o.requireResearch && evidence <= 0 then REVIEW
      else if o.mode == Auto || c.policy == policy then Decision(Some(policy), false)
      else REVIEW
  }

  /** What surrounds the handling of one primary classification. */
  datatype Context = Context(manualRequest: bool, matched: Option<Profile>, alarm: Option<string>,
                             manualTags: seq<string>, evidence: int, lock: Option<Policy>)

  datatype Handling = Handling(action: Option<Policy>, stored: Classification, simulated: bool, lockConflict: bool)

  const MANUALLY_QUEUED := "Manually queued for review."

  function Guarded(c: Classification, x: Context): Classification {
    var queued := c.(needsReview := c.needsReview || x.manualRequest,
                     reviewReason := if c.reviewReason != "" then c.reviewReason
                                     else if x.manualRequest then MANUALLY_QUEUED else "");
    CompatibilityGuard(queued, x.matched, x.alarm)
  }

  /** The override changes the tags the decision looks at, not the stored classification. */
  function Handle(c: Classification, x: Context, o: LlmOptions): Handling {
    var guarded := Guarded(c, x);
    var judged := if x.manualTags != [] then guarded.(tags := x.manualTags) else guarded;
    var action := Resolve(judged, x.evidence, o).action;
    var conflict := x.lock.Some? && action.Some? && x.lock.value != action.value;
    if conflict then Handling(None, guarded, o.simulation, true)
    else Handling(action, guarded, o.simulation, false)
  }

  function Strongest(roles: set<ServiceRole>): ServiceRole {
    if Core in roles then Core else if Shared in roles then Shared
    else if OptionalRole in roles then OptionalRole else UnknownRole
  }

  /** No guard changes the policy, lowers the breakage risk or the role, or clears a review; review is
      added exactly for a manual request, a behavior alarm, and a deny on a protected service. */
  lemma GuardsOnlyRaise(c: Classification, x: Context)
    ensures var g := Guarded(c, x);
            && g.policy == c.policy && g.domain == c.domain && g.tags == c.tags && g.category == c.category
            && g.security == c.security && g.confidence == c.confidence
            && (g.needsReview <==>
                || c.needsReview || x.manualRequest || x.alarm.Some?
                || (x.matched.Some? && x.matched.value.denyNeedsReview && c.policy == Deny))
            && g.breakage >= c.breakage
            && (x.matched.None? ==> g.breakage == c.breakage && g.role == c.role && g.service == c.service)
            && (x.matched.Some? ==>
                  && g.breakage >= x.matched.value.minBreakage
                  && g.breakage in {c.breakage, x.matched.value.minBreakage}
                  && g.role == Strongest({c.role, x.matched.value.role})
                  && g.service == if c.service == "" then x.matched.value.name else c.service)
  {
  }

  /** The text is all of the other, or starts with it and a space. */
  predicate Continues(text: string, first: string) {
    text == first || (|text| > |first| && text[..|first|] == first && (first == "" || text[|first|] == ' '))
  }

  lemma JoinKeeps(first: string, second: string)
    ensures Continues(JoinReasons(first, second), first) && Contains(JoinReasons(first, second), second)
  {
    var joined := JoinReasons(first, second);
    if first == "" {
      assert At(joined, second, 0);
    } else if !Contains(first, second) {
      assert joined == first + (" " + second);
      assert At(joined, second, |first| + 1);
    }
  }

  /** An alarm's reason is among the reasons for review, after the one the classification had. */
  lemma ReasonsAreKept(c: Classification, x: Context)
    ensures Continues(Guarded(c, x).reviewReason, c.reviewReason)
    ensures x.alarm.Some? ==> Contains(Guarded(c, x).reviewReason, x.alarm.value)
    ensures x.manualRequest && c.reviewReason == "" ==> Continues(Guarded(c, x).reviewReason, MANUALLY_QUEUED)
    ensures x.alarm.None? && x.matched.Some? && x.matched.value.denyNeedsReview && c.policy == Deny ==>
              Contains(Guarded(c, x).reviewReason, x.matched.value.reason)
  {
    var queued := if c.reviewReason != "" then c.reviewReason else if x.manualRequest then MANUALLY_QUEUED else "";
    var matched := if x.matched.Some? && x.matched.value.denyNeedsReview && c.policy == Deny
                   then JoinReasons(queued, x.matched.value.reason) else queued;
    if x.matched.Some? {
      JoinKeeps(queued, x.matched.value.reason);
    }
    if x.alarm.Some? {
      JoinKeeps(matched, x.alarm.value);
    }
  }

  /** The tag's configured policy; a tag without one asks for review. */
  predicate Configured(o: LlmOptions, tag: string, p: TagPolicy) {
    if tag in o.tagPolicies then o.tagPolicies[tag] == p else p == TagReview
  }

  /** The tags a decision looks at: the override's, else the classification's, else its category. */
  function DecidingTags(c: Classification, x: Context): seq<string> {
    if x.manualTags != [] then x.manualTags else if c.tags == [] then [c.category] else c.tags
  }

  /** Exactly when an automatic action is taken: by mode, review, confidence, role, risk, the
      policies of all tags, evidence and lock of the guarded classification. */
  lemma ActionIff(c: Classification, x: Context, o: LlmOptions, p: Policy)
    ensures var g := Guarded(c, x);
            Handle(c, x, o).action == Some(p) <==>
              && (p == Allow || p == Deny)
              && (o.mode == Auto || (o.mode == Hybrid && g.policy == p))
              && !g.needsReview && g.confidence >= o.minConfidence && g.role != Core && g.role != Shared
              && g.breakage < 50
              && (forall t :: t in DecidingTags(c, x) ==> Configured(o, t, if p == Allow then TagAllow else TagDeny))
              && (o.requireResearch ==> x.evidence > 0)
              && (x.lock.Some? ==> x.lock.value == p)
  {
    var guarded := Guarded(c, x);
    var judged := if x.manualTags != [] then guarded.(tags := x.manualTags) else guarded;
    var tags := EffectiveTags(judged);
    assert tags == DecidingTags(c, x) && tags[0] in tags;
  }

  /** The guarded classification is stored whatever is decided. A lock stands in the way of exactly
      the actions that would be taken without it on the other list. */
  lemma LocksOnlyBlock(c: Classification, x: Context, o: LlmOptions)
    ensures var h, free := Handle(c, x, o), Handle(c, x.(lock := None), o);
            && h.stored == Guarded(c, x) && h.simulated == o.simulation && !free.lockConflict
            && (h.lockConflict <==> x.lock.Some? && free.action.Some? && free.action != x.lock)
            && h.action == if h.lockConflict then None else free.action
  {
  }

  /** Without an action the decision asks for review, except in manual mode and, unless review was
      asked for already, below the confidence needed. */
  lemma ReviewedIff(c: Classification, evidence: int, o: LlmOptions)
    ensures var d := Resolve(c, evidence, o);
            d.reviewed <==> o.mode != Manual && d.action.None? && (c.needsReview || c.confidence >= o.minConfidence)
  {
  }

  /** An automatic action needs a decisive, unreviewed, confident classification of low
      breakage risk whose every tag is configured for exactly that action. */
  lemma ActionMeansCleared(c: Classification, x: Context, o: LlmOptions)
    requires Handle(c, x, o).action.Some?
    ensures var p := Handle(c, x, o).action.value;
            && Decisive(p) && !c.needsReview && !x.manualRequest && x.alarm.None?
            && c.confidence >= o.minConfidence && c.breakage < 50 && c.role != Core && c.role != Shared
            && (o.mode == Hybrid ==> c.policy == p) && o.mode != Manual
            && (x.lock.Some? ==> x.lock.value == p)
            && (o.requireResearch ==> x.evidence > 0)
            && forall t :: t in DecidingTags(c, x) ==> Configured(o, t, if p == Allow then TagAllow else TagDeny)
  {
    GuardsOnlyRaise(c, x);
    ActionIff(c, x, o, Handle(c, x, o).action.value);
  }

  /** Two-provider agreement. In a verify pool that verifies automatic actions, with hybrid
      automation, an automatic allow or deny (applied or simulated) implies that a different
      provider classified the same domain in agreement, with that very policy. */
  lemma AutomaticActionsAreConfirmed(primary: seq<Classification>, i: nat, primaryId: string, order: seq<string>,
                                     pool: Pool, bucket: Domain -> nat, run: (string, seq<Domain>) -> Execution,
                                     x: Context, o: LlmOptions)
    requires i < |primary| && pool.verifyAutomatic && o.mode == Hybrid
    requires forall id, given {:trigger run(id, given)} :: Accounts(given, run(id, given))
    requires Verify(primary, primaryId, order, pool, bucket, run).Verified?
    requires var v := Verify(primary, primaryId, order, pool, bucket, run);
             i < |v.primary| && Handle(v.primary[i], x, o).action.Some?
    ensures var v := Verify(primary, primaryId, order, pool, bucket, run);
            && Confirmed(primary[i], v, primaryId)
            && Handle(v.primary[i], x, o).action == Some(primary[i].policy)
  {
    VerifyOne(primary, i, primaryId, order, pool, bucket, run);
    ActionMeansCleared(Verify(primary, primaryId, order, pool, bucket, run).primary[i], x, o);
  }

  /** In any mode, an automatic action on a domain classified once is confirmed exactly when
      the primary's classification had to be verified. */
  lemma ConfirmedIffRequired(primary: seq<Classification>, i: nat, primaryId: string, order: seq<string>,
                             pool: Pool, bucket: Domain -> nat, run: (string, seq<Domain>) -> Execution,
                             x: Context, o: LlmOptions)
    requires i < |primary| && Distinct(Domains(primary))
    requires forall id, given {:trigger run(id, given)} :: Accounts(given, run(id, given))
    requires Verify(primary, primaryId, order, pool, bucket, run).Verified?
    requires var v := Verify(primary, primaryId, order, pool, bucket, run);
             i < |v.primary| && Handle(v.primary[i], x, o).action.Some?
    ensures Confirmed(primary[i], Verify(primary, primaryId, order, pool, bucket, run), primaryId) <==>
            MustVerify(primary[i], pool, bucket)
  {
    var v := Verify(primary, primaryId, order, pool, bucket, run);
    VerifyOne(primary, i, primaryId, order, pool, bucket, run);
    ActionMeansCleared(v.primary[i], x, o);
    if Confirmed(primary[i], v, primaryId) {
      ConfirmedWasRequired(primary, i, primaryId, order, pool, bucket, run);
    }
  }

  lemma ConfirmedWasRequired(primary: seq<Classification>, i: nat, primaryId: string, order: seq<string>,
                             pool: Pool, bucket: Domain -> nat, run: (string, seq<Domain>) -> Execution)
    requires i < |primary| && Distinct(Domains(primary))
    requires forall id, given {:trigger run(id, given)} :: Accounts(given, run(id, given))
    requires Verify(primary, primaryId, order, pool, bucket, run).Verified?
    requires Confirmed(primary[i], Verify(primary, primaryId, order, pool, bucket, run), primaryId)
    ensures MustVerify(primary[i], pool, bucket)
  {
    var v := Verify(primary, primaryId, order, pool, bucket, run);
    var other :| other in v.secondary && other.domain == primary[i].domain;
    var c := SecondaryIsRequired(primary, primaryId, order, pool, bucket, run, other);
    SameDomainSame(primary, i, c);
  }

  lemma SameDomainSame(cs: seq<Classification>, i: nat, c: Classification)
    requires i < |cs| && Distinct(Domains(cs)) && c in cs && c.domain == cs[i].domain
    ensures c == cs[i]
  {
    DomainsAt(cs);
    var j :| 0 <= j < |cs| && cs[j] == c;
    assert Domains(cs)[i] == Domains(cs)[j];
  }

  lemma {:induction false} MemberOfDomains(cs: seq<Classification>, c: Classification)
    requires c in cs
    ensures c.domain in Domains(cs)
  {
    DomainsAt(cs);
    var i :| 0 <= i < |cs| && cs[i] == c;
    assert Domains(cs)[i] == c.domain;
  }

  lemma SecondaryIsRequired(primary: seq<Classification>, primaryId: string, order: seq<string>, pool: Pool,
                            bucket: Domain -> nat, run: (string, seq<Domain>) -> Execution, other: Classification)
    returns (c: Classification)
    requires forall id, given {:trigger run(id, given)} :: Accounts(given, run(id, given))
    requires Verify(primary, primaryId, order, pool, bucket, run).Verified?
    requires other in Verify(primary, primaryId, order, pool, bucket, run).secondary
    ensures c in primary && c.domain == other.domain && MustVerify(c, pool, bucket)
  {
    var domains := ToVerify(primary, pool, bucket);
    RequiredAreListed(primary, pool, bucket);
    var e := run(Verifier(order, primaryId).value, domains);
    assert Accounts(domains, e);
    match e {
      case Whole(cs, _) => MemberOfDomains(cs, other);
      case Partial(cs, _, failed, _) =>
        MemberOfDomains(cs, other);
        assert other.domain in Domains(cs) + failed;
      case _ =>
    }
    c :| c in primary && c.domain == other.domain && MustVerify(c, pool, bucket);
  }

  /** Outside hybrid mode the agreement can be missing: with full automation, a classification
      that recommends manual review, without marking the result for review, is acted on by its
      tags and verified by nobody. */
  lemma AutoModeCanActAlone()
    ensures exists primary: seq<Classification>, pool: Pool, bucket, run: (string, seq<Domain>) -> Execution,
              x: Context, o: LlmOptions ::
              && pool.verifyAutomatic && o.mode == Auto
              && (forall id, given {:trigger run(id, given)} :: Accounts(given, run(id, given)))
              && (var v := Verify(primary, "a", ["a", "b"], pool, bucket, run);
                  v.Verified? && |v.primary| > 0 && Handle(v.primary[0], x, o).action == Some(Deny)
                  && !Confirmed(v.primary[0], v, "a"))
  {
    var c := Classification("ads.example", ManualReview, "ads", ["ads"], "", UnknownRole, 0, 0, 1.0, false, "");
    var primary := [c];
    var pool := Pool(true, 80, 50, 0);
    var bucket := (d: Domain) => 0;
    var run := (id: string, given: seq<Domain>) => Aborted;
    var x := Context(false, None, None, [], 1, None);
    var o := LlmOptions(Auto, 0.95, map["ads" := TagDeny], true, true);
    assert ToVerify(primary, pool, bucket) == [];
    var v := Verify(primary, "a", ["a", "b"], pool, bucket, run);
    assert v == Verified(primary, [], "");
    assert Guarded(c, x) == c;
    assert EffectiveTags(c) == ["ads"];
    assert forall t :: t in ["ads"] ==> t == "ads";
    assert Handle(c, x, o).action == Some(Deny);
    assert !Confirmed(v.primary[0], v, "a");
    assert forall id, given {:trigger run(id, given)} :: Accounts(given, run(id, given));
  }
}
