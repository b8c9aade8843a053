/** The Albert challenge map: merge a re-raised challenge or mint a new one
    (artifacts/challenge_map.py), and the audit pass that feeds it (graph.node_albert_audit). */
module ChallengeMap {
  import opened Models
  import Dictionary
  import opened Numbering

  const MERGE_THRESHOLD: real := 0.85

  /** Text normalisation and the similarity ratio of a new text against a recorded one. */
  datatype Similarity = Similarity(normalize: string -> string, ratio: (string, string) -> real)

  function Closeness(sim: Similarity, newer: string, older: string): real {
    sim.ratio(sim.normalize(newer), sim.normalize(older))
  }

  predicate IsLiveStatus(s: ChallengeStatus) {
    s != ChallengeStatus.Resolved && s != ChallengeStatus.EscalatedToHuman
  }

  predicate Live(c: AlbertChallenge) { IsLiveStatus(c.status) }

  /** The keyword arguments of upsert; None leaves a field alone, prior "" names nobody. */
  datatype Upsertion = Upsertion(
    challenge: string, why: Option<string>, currentAnswer: Option<string>,
    status: Option<ChallengeStatus>, classification: Option<Classification>,
    confidence: Option<nat>, evidenceRefs: Option<seq<string>>, issueId: Option<string>,
    prior: string, replaceRefs: bool)

  // ----- specification -----

  function FindById(cs: seq<AlbertChallenge>, id: string): Option<nat> {
    Dictionary.Find(cs, (c: AlbertChallenge) => c.id, id)
  }

  function Put(cs: seq<AlbertChallenge>, c: AlbertChallenge): seq<AlbertChallenge> {
    Dictionary.Put(cs, (c: AlbertChallenge) => c.id, c)
  }

  /** The live challenge closest to the text, the latest one among equals; none below the threshold. */
  function BestLive(sim: Similarity, cs: seq<AlbertChallenge>, text: string): (k: Option<nat>)
    ensures k.Some? ==>
      && k.value < |cs| && Live(cs[k.value]) && Closeness(sim, text, cs[k.value].challenge) >= MERGE_THRESHOLD
      && forall i :: 0 <= i < |cs| && Live(cs[i]) ==>
           var r, best := Closeness(sim, text, cs[i].challenge), Closeness(sim, text, cs[k.value].challenge);
           r < best || (r == best && i <= k.value)
    ensures k.None? ==>
      forall i :: 0 <= i < |cs| && Live(cs[i]) ==> Closeness(sim, text, cs[i].challenge) < MERGE_THRESHOLD
  {
    if cs == [] then None
    else
      var last := cs[|cs| - 1];
      var before := BestLive(sim, cs[..|cs| - 1], text);
      var floor := if before.None? then MERGE_THRESHOLD else Closeness(sim, text, cs[before.value].challenge);
      if Live(last) && Closeness(sim, text, last.challenge) >= floor then Some(|cs| - 1) else before
  }

  /** _find_live_match */
  function Target(sim: Similarity, cs: seq<AlbertChallenge>, text: string, prior: string): (k: Option<nat>)
    ensures k.Some? ==> k.value < |cs|
  {
    if prior != "" && FindById(cs, prior).Some? then FindById(cs, prior) else BestLive(sim, cs, text)
  }

  function MergedRefs(refs: seq<string>, more: seq<string>): (r: seq<string>)
    ensures refs <= r
    ensures forall x :: x in r <==> x in refs || x in more
  {
    if more == [] then refs
    else
      var front := MergedRefs(refs, more[..|more| - 1]);
      if more[|more| - 1] in front then front else front + [more[|more| - 1]]
  }

  function Or<T>(o: Option<T>, default: T): T {
    if o.Some? then o.value else default
  }

  function Minted(cs: seq<AlbertChallenge>, u: Upsertion): AlbertChallenge {
    AlbertChallenge(ChallengeId(|cs| + 1), u.challenge, u.issueId, Or(u.why, ""), Or(u.currentAnswer, ""),
                    Or(u.status, ChallengeStatus.Open), Or(u.confidence, 0), Or(u.evidenceRefs, []),
                    u.classification, 1)
  }

  function Merged(c: AlbertChallenge, u: Upsertion): AlbertChallenge {
    c.(roundsSeen := c.roundsSeen + 1,
       issueId := if u.issueId.Some? then u.issueId else c.issueId,
       why := Or(u.why, c.why),
       currentAnswer := Or(u.currentAnswer, c.currentAnswer),
       status := Or(u.status, c.status),
       classification := if u.classification.Some? then u.classification else c.classification,
       confidence := Or(u.confidence, c.confidence),
       evidenceRefs := if u.evidenceRefs.None? then c.evidenceRefs
                       else if u.replaceRefs then u.evidenceRefs.value
                       else MergedRefs(c.evidenceRefs, u.evidenceRefs.value))
  }

  /** upsert: the new map and the id of the challenge it returns. */
  function Upserted(sim: Similarity, cs: seq<AlbertChallenge>, u: Upsertion): (seq<AlbertChallenge>, string) {
    match Target(sim, cs, u.challenge, u.prior)
    case None => (Put(cs, Minted(cs, u)), Minted(cs, u).id)
    case Some(k) => (cs[k := Merged(cs[k], u)], cs[k].id)
  }

  /** What the audit node passes on for one challenge the auditor raised. */
  function FromAudit(ch: AlbertChallenge): Upsertion {
    Upsertion(ch.challenge,
              if ch.why == "" then None else Some(ch.why),
              if ch.currentAnswer == "" then None else Some(ch.currentAnswer),
              Some(ch.status), ch.classification,
              if ch.confidence == 0 then None else Some(ch.confidence),
              if ch.evidenceRefs == [] then None else Some(ch.evidenceRefs),
              ch.issueId, "", false)
  }

  /** An answered challenge backed by evidence is resolved. */
  function Promoted(c: AlbertChallenge): AlbertChallenge {
    if c.status == ChallengeStatus.Answered && c.evidenceRefs != [] then c.(status := ChallengeStatus.Resolved) else c
  }

  function PromotedAt(cs: seq<AlbertChallenge>, id: string): seq<AlbertChallenge> {
    match FindById(cs, id)
    case Some(k) => cs[k := Promoted(cs[k])]
    case None => cs
  }

  function RecordOne(sim: Similarity, cs: seq<AlbertChallenge>, ch: AlbertChallenge): seq<AlbertChallenge> {
    var (cs', id) := Upserted(sim, cs, FromAudit(ch));
    PromotedAt(cs', id)
  }

  function RecordAll(sim: Similarity, cs: seq<AlbertChallenge>, audit: seq<AlbertChallenge>): seq<AlbertChallenge> {
    if audit == [] then cs
    else RecordOne(sim, RecordAll(sim, cs, audit[..|audit| - 1]), audit[|audit| - 1])
  }

  // ----- the operations, in place -----

  method FindLiveMatch(state: ResearchState, sim: Similarity, text: string, prior: string) returns (k: Option<nat>)
    ensures k == Target(sim, state.challengeMap, text, prior)
  {
    if prior != "" {
      k := FindById(state.challengeMap, prior);
      if k.Some? {
        return;
      }
    }
    k := None;
    var bestRatio := MERGE_THRESHOLD;
    for i := 0 to |state.challengeMap|
      invariant k == BestLive(sim, state.challengeMap[..i], text)
      invariant k.None? ==> bestRatio == MERGE_THRESHOLD
      invariant k.Some? ==> bestRatio == Closeness(sim, text, state.challengeMap[k.value].challenge)
    {
      var ch := state.challengeMap[i];
      assert state.challengeMap[..i + 1][..i] == state.challengeMap[..i];
      if Live(ch) {
        var ratio := Closeness(sim, text, ch.challenge);
        if ratio >= bestRatio {
          k := Some(i);
          bestRatio := ratio;
        }
      }
    }
    assert state.challengeMap[..|state.challengeMap|] == state.challengeMap;
  }

  method Upsert(state: ResearchState, sim: Similarity, u: Upsertion) returns (id: string)
    modifies state`challengeMap
    ensures (state.challengeMap, id) == Upserted(sim, old(state.challengeMap), u)
  {
    var k := FindLiveMatch(state, sim, u.challenge, u.prior);
    if k.None? {
      var c := Minted(state.challengeMap, u);
      state.challengeMap := Put(state.challengeMap, c);
      return c.id;
    }
    var c := MergeOnto(state.challengeMap[k.value], u);
    id := c.id;
    state.challengeMap := state.challengeMap[k.value := c];
  }

  method MergeOnto(recorded: AlbertChallenge, u: Upsertion) returns (c: AlbertChallenge)
    ensures c == Merged(recorded, u)
  {
    c := recorded.(roundsSeen := recorded.roundsSeen + 1);
    if u.issueId.Some? {
      c := c.(issueId := u.issueId);
    }
    if u.why.Some? {
      c := c.(why := u.why.value);
    }
    if u.currentAnswer.Some? {
      c := c.(currentAnswer := u.currentAnswer.value);
    }
    if u.status.Some? {
      c := c.(status := u.status.value);
    }
    if u.classification.Some? {
      c := c.(classification := u.classification);
    }
    if u.confidence.Some? {
      c := c.(confidence := u.confidence.value);
    }
    if u.evidenceRefs.Some? {
      if u.replaceRefs {
        c := c.(evidenceRefs := u.evidenceRefs.value);
      } else {
        var refs := AppendMissing(c.evidenceRefs, u.evidenceRefs.value);
        c := c.(evidenceRefs := refs);
      }
    }
  }

  method AppendMissing(refs: seq<string>, more: seq<string>) returns (r: seq<string>)
    ensures r == MergedRefs(refs, more)
  {
    r := refs;
    for i := 0 to |more|
      invariant r == MergedRefs(refs, more[..i])
    {
      assert more[..i + 1][..i] == more[..i];
      if more[i] !in r {
        r := r + [more[i]];
      }
    }
    assert more[..|more|] == more;
  }

  method RecordAudit(state: ResearchState, sim: Similarity, audit: seq<AlbertChallenge>)
    modifies state`challengeMap
    ensures state.challengeMap == RecordAll(sim, old(state.challengeMap), audit)
  {
    for i := 0 to |audit|
      invariant state.challengeMap == RecordAll(sim, old(state.challengeMap), audit[..i])
    {
      assert audit[..i + 1][..i] == audit[..i];
      var id := Upsert(state, sim, FromAudit(audit[i]));
      state.challengeMap := PromotedAt(state.challengeMap, id);
    }
    assert audit[..|audit|] == audit;
  }

  // ----- what every audit pass keeps -----

  ghost predicate Numbered(cs: seq<AlbertChallenge>) {
    forall i :: 0 <= i < |cs| ==> cs[i].id == ChallengeId(i + 1)
  }

  /** Of two live challenges the newer one is never a near-duplicate of the older one. */
  ghost predicate NoLiveTwins(sim: Similarity, cs: seq<AlbertChallenge>) {
    forall i, j :: 0 <= i < j < |cs| && Live(cs[i]) && Live(cs[j]) ==>
      Closeness(sim, cs[j].challenge, cs[i].challenge) < MERGE_THRESHOLD
  }

  function TotalRounds(cs: seq<AlbertChallenge>): nat {
    if cs == [] then 0 else TotalRounds(cs[..|cs| - 1]) + cs[|cs| - 1].roundsSeen
  }

  /** What may happen to one recorded challenge: its text stays, its evidence only extends,
      and once resolved or escalated it never changes again. */
  ghost predicate Later(c: AlbertChallenge, c': AlbertChallenge) {
    && c'.id == c.id && c'.challenge == c.challenge
    && c.roundsSeen <= c'.roundsSeen && c.evidenceRefs <= c'.evidenceRefs
    && (!Live(c) ==> c' == c)
  }

  ghost predicate Grown(cs: seq<AlbertChallenge>, cs': seq<AlbertChallenge>) {
    |cs| <= |cs'| && forall i :: 0 <= i < |cs| ==> Later(cs[i], cs'[i])
  }

  lemma {:induction false} NextIdIsFree(cs: seq<AlbertChallenge>)
    requires Numbered(cs)
    ensures FindById(cs, ChallengeId(|cs| + 1)) == None
  {
    var k := FindById(cs, ChallengeId(|cs| + 1));
    if k.Some? {
      assert cs[k.value].id == ChallengeId(k.value + 1);
      IdsAreUnique(k.value + 1, |cs| + 1, "");
    }
  }

  lemma {:induction false} IdsAreFound(cs: seq<AlbertChallenge>)
    requires Numbered(cs)
    ensures forall i :: 0 <= i < |cs| ==> FindById(cs, cs[i].id) == Some(i)
  {
    forall i | 0 <= i < |cs| ensures FindById(cs, cs[i].id) == Some(i) {
      var k := FindById(cs, cs[i].id).value;
      IdsAreUnique(i + 1, k + 1, "");
    }
  }

  lemma {:induction false} TotalRoundsUpdate(cs: seq<AlbertChallenge>, k: nat, c: AlbertChallenge)
    requires k < |cs|
    ensures TotalRounds(cs[k := c]) == TotalRounds(cs) - cs[k].roundsSeen + c.roundsSeen
    decreases |cs|
  {
    var front := cs[..|cs| - 1];
    if k < |cs| - 1 {
      TotalRoundsUpdate(front, k, c);
      assert cs[k := c][..|cs| - 1] == front[k := c];
    } else {
      assert cs[k := c][..|cs| - 1] == front;
    }
  }

  lemma {:induction false} PromotionWrites(cs: seq<AlbertChallenge>, k: nat)
    requires Numbered(cs) && k < |cs|
    ensures PromotedAt(cs, cs[k].id) == cs[k := Promoted(cs[k])]
  {
    IdsAreFound(cs);
  }

  lemma {:induction false} RecordOneMerges(sim: Similarity, cs: seq<AlbertChallenge>, ch: AlbertChallenge)
    requires Numbered(cs) && Target(sim, cs, ch.challenge, "").Some?
    ensures var k := Target(sim, cs, ch.challenge, "").value;
      RecordOne(sim, cs, ch) == cs[k := Promoted(Merged(cs[k], FromAudit(ch)))]
  {
    var k := Target(sim, cs, ch.challenge, "").value;
    var cs' := cs[k := Merged(cs[k], FromAudit(ch))];
    PromotionWrites(cs', k);
    assert cs'[k := Promoted(cs'[k])] == cs[k := Promoted(cs'[k])];
  }

  lemma {:induction false} RecordOneMints(sim: Similarity, cs: seq<AlbertChallenge>, ch: AlbertChallenge)
    requires Numbered(cs) && Target(sim, cs, ch.challenge, "").None?
    ensures RecordOne(sim, cs, ch) == cs + [Promoted(Minted(cs, FromAudit(ch)))]
  {
    var c := Minted(cs, FromAudit(ch));
    MintAppends(cs, c);
    assert Upserted(sim, cs, FromAudit(ch)) == (cs + [c], c.id);
  }

  lemma {:induction false} MintAppends(cs: seq<AlbertChallenge>, c: AlbertChallenge)
    requires Numbered(cs) && c.id == ChallengeId(|cs| + 1)
    ensures Put(cs, c) == cs + [c]
    ensures PromotedAt(cs + [c], c.id) == cs + [Promoted(c)]
  {
    hide Numbered, ChallengeId;
    NextIdIsFree(cs);
    assert FindById(cs + [c], c.id) == Some(|cs|);
    assert (cs + [c])[|cs| := Promoted(c)] == cs + [Promoted(c)];
  }

  lemma {:induction false} MergeOnlyMovesForward(c: AlbertChallenge, ch: AlbertChallenge)
    requires Live(c)
    ensures var c' := Promoted(Merged(c, FromAudit(ch)));
      Later(c, c') && c'.roundsSeen == c.roundsSeen + 1
  {
  }

  lemma {:induction false} WriteKeeps(sim: Similarity, cs: seq<AlbertChallenge>, k: nat, c: AlbertChallenge)
    requires Numbered(cs) && NoLiveTwins(sim, cs) && k < |cs| && Live(cs[k]) && Later(cs[k], c)
    ensures Numbered(cs[k := c]) && NoLiveTwins(sim, cs[k := c]) && Grown(cs, cs[k := c])
  {
    var cs' := cs[k := c];
    forall i, j | 0 <= i < j < |cs'| && Live(cs'[i]) && Live(cs'[j])
      ensures Closeness(sim, cs'[j].challenge, cs'[i].challenge) < MERGE_THRESHOLD
    {
      assert Live(cs[i]) && Live(cs[j]);
    }
  }

  lemma {:induction false} MintKeeps(sim: Similarity, cs: seq<AlbertChallenge>, c: AlbertChallenge)
    requires Numbered(cs) && NoLiveTwins(sim, cs) && c.id == ChallengeId(|cs| + 1)
    requires forall i :: 0 <= i < |cs| && Live(cs[i]) ==> Closeness(sim, c.challenge, cs[i].challenge) < MERGE_THRESHOLD
    ensures Numbered(cs + [c]) && NoLiveTwins(sim, cs + [c]) && Grown(cs, cs + [c])
  {
    var cs' := cs + [c];
    forall i, j | 0 <= i < j < |cs'| && Live(cs'[i]) && Live(cs'[j])
      ensures Closeness(sim, cs'[j].challenge, cs'[i].challenge) < MERGE_THRESHOLD
    {
      assert cs'[i] == cs[i];
    }
  }

  lemma {:induction false} RecordOneKeeps(sim: Similarity, cs: seq<AlbertChallenge>, ch: AlbertChallenge)
    requires Numbered(cs) && NoLiveTwins(sim, cs)
    ensures var cs' := RecordOne(sim, cs, ch);
      && Numbered(cs') && NoLiveTwins(sim, cs') && Grown(cs, cs')
      && TotalRounds(cs') == TotalRounds(cs) + 1
  {
    if Target(sim, cs, ch.challenge, "").Some? {
      RecordOneMerges(sim, cs, ch);
      var k := Target(sim, cs, ch.challenge, "").value;
      var c := Promoted(Merged(cs[k], FromAudit(ch)));
      MergeOnlyMovesForward(cs[k], ch);
      WriteKeeps(sim, cs, k, c);
      TotalRoundsUpdate(cs, k, c);
    } else {
      RecordOneMints(sim, cs, ch);
      var c := Promoted(Minted(cs, FromAudit(ch)));
      MintKeeps(sim, cs, c);
      assert (cs + [c])[..|cs|] == cs;
    }
  }

  lemma {:induction false} RecordAllKeeps(sim: Similarity, cs: seq<AlbertChallenge>, audit: seq<AlbertChallenge>)
    requires Numbered(cs) && NoLiveTwins(sim, cs)
    ensures var cs' := RecordAll(sim, cs, audit);
      && Numbered(cs') && NoLiveTwins(sim, cs') && Grown(cs, cs')
      && TotalRounds(cs') == TotalRounds(cs) + |audit|
    decreases |audit|
  {
    if audit != [] {
      var before := RecordAll(sim, cs, audit[..|audit| - 1]);
      RecordAllKeeps(sim, cs, audit[..|audit| - 1]);
      RecordOneKeeps(sim, before, audit[|audit| - 1]);
      GrownIsTransitive(cs, before, RecordAll(sim, cs, audit));
    }
  }

  lemma {:induction false} GrownIsTransitive(a: seq<AlbertChallenge>, b: seq<AlbertChallenge>, c: seq<AlbertChallenge>)
    requires Grown(a, b) && Grown(b, c)
    ensures Grown(a, c)
  {
    forall i | 0 <= i < |a| ensures Later(a[i], c[i]) {
      assert Later(a[i], b[i]) && Later(b[i], c[i]);
    }
  }

  // ----- whole runs -----

  /** The map after a sequence of audit passes, from an empty map. */
  function AfterPasses(sim: Similarity, passes: seq<seq<AlbertChallenge>>): seq<AlbertChallenge> {
    if passes == [] then []
    else RecordAll(sim, AfterPasses(sim, passes[..|passes| - 1]), passes[|passes| - 1])
  }

  function Raised(passes: seq<seq<AlbertChallenge>>): nat {
    if passes == [] then 0 else Raised(passes[..|passes| - 1]) + |passes[|passes| - 1]|
  }

  /** After any passes: ids count up without a clash, no two live challenges are near-duplicates,
      and every challenge raised is counted in exactly one roundsSeen. */
  lemma {:induction false} EveryRunConverges(sim: Similarity, passes: seq<seq<AlbertChallenge>>)
    ensures var cs := AfterPasses(sim, passes);
      Numbered(cs) && NoLiveTwins(sim, cs) && TotalRounds(cs) == Raised(passes)
    decreases |passes|
  {
    if passes != [] {
      EveryRunConverges(sim, passes[..|passes| - 1]);
      RecordAllKeeps(sim, AfterPasses(sim, passes[..|passes| - 1]), passes[|passes| - 1]);
    }
  }

  /** From any moment of a run to any later one every challenge only moves forward. */
  lemma {:induction false} RunsOnlyMoveForward(sim: Similarity, passes: seq<seq<AlbertChallenge>>, m: nat)
    requires m <= |passes|
    ensures Grown(AfterPasses(sim, passes[..m]), AfterPasses(sim, passes))
    decreases |passes|
  {
    if m == |passes| {
      assert passes[..m] == passes;
    } else {
      var before := passes[..|passes| - 1];
      RunsOnlyMoveForward(sim, before, m);
      assert before[..m] == passes[..m];
      EveryRunConverges(sim, before);
      RecordAllKeeps(sim, AfterPasses(sim, before), passes[|passes| - 1]);
      GrownIsTransitive(AfterPasses(sim, passes[..m]), AfterPasses(sim, before), AfterPasses(sim, passes));
    }
  }

  // ----- what one raised challenge leaves behind -----

  /** Where a raised challenge lands: on live challenge k when none is closer and, among the equally
      close, none is later; the text then is close enough. */
  ghost predicate LandsOn(sim: Similarity, cs: seq<AlbertChallenge>, text: string, k: nat)
    requires k < |cs|
  {
    var close := (c: AlbertChallenge) => sim.ratio(sim.normalize(text), sim.normalize(c.challenge));
    var open := (c: AlbertChallenge) =>
      c.status != ChallengeStatus.Resolved && c.status != ChallengeStatus.EscalatedToHuman;
    && open(cs[k]) && close(cs[k]) >= 0.85
    && (forall i :: 0 <= i < k && open(cs[i]) ==> close(cs[i]) <= close(cs[k]))
    && (forall i :: k < i < |cs| && open(cs[i]) ==> close(cs[i]) < close(cs[k]))
  }

  lemma {:induction false} LandsOnTarget(sim: Similarity, cs: seq<AlbertChallenge>, text: string, k: nat)
    requires k < |cs|
    ensures LandsOn(sim, cs, text, k) <==> Target(sim, cs, text, "") == Some(k)
  {
    var t := BestLive(sim, cs, text);
    if LandsOn(sim, cs, text, k) {
      assert Live(cs[k]) && Closeness(sim, text, cs[k].challenge) >= MERGE_THRESHOLD;
    }
  }

  /** The evidence refs a merge leaves: the recorded ones first, then what is new, each once. */
  ghost predicate Extends(before: seq<string>, more: seq<string>, after: seq<string>) {
    && before <= after
    && (forall x :: x in after <==> x in before || x in more)
    && (forall i, j :: |before| <= i < j < |after| ==> after[i] != after[j])
    && (forall i :: |before| <= i < |after| ==> after[i] !in before)
  }

  lemma {:induction false} MergedRefsExtend(refs: seq<string>, more: seq<string>)
    ensures Extends(refs, more, MergedRefs(refs, more))
    decreases |more|
  {
    if more != [] {
      MergedRefsExtend(refs, more[..|more| - 1]);
    }
  }

  /** What the auditor says of a challenge, and what is on record about it, decide what is recorded:
      its status, resolved only by the auditor's word or as answered with some evidence; its confidence
      and answer, the old ones kept when the auditor leaves them blank; its evidence, only extended. */
  ghost predicate Recorded(before: Option<AlbertChallenge>, ch: AlbertChallenge, after: AlbertChallenge) {
    var c := if before.Some? then before.value
               else AlbertChallenge(after.id, ch.challenge, None, "", "", ChallengeStatus.Open, 0, [], None, 0);
    && after.id == c.id && after.challenge == c.challenge && after.roundsSeen == c.roundsSeen + 1
    && (after.status == ChallengeStatus.Resolved <==>
          || ch.status == ChallengeStatus.Resolved
          || (ch.status == ChallengeStatus.Answered && (c.evidenceRefs != [] || ch.evidenceRefs != [])))
    && (after.status != ChallengeStatus.Resolved ==> after.status == ch.status)
    && after.confidence == (if ch.confidence > 0 then ch.confidence else c.confidence)
    && after.currentAnswer == (if ch.currentAnswer != "" then ch.currentAnswer else c.currentAnswer)
    && after.why == (if ch.why != "" then ch.why else c.why)
    && after.issueId == (if ch.issueId.Some? then ch.issueId else c.issueId)
    && after.classification == (if ch.classification.Some? then ch.classification else c.classification)
    && (before.Some? ==> Extends(c.evidenceRefs, ch.evidenceRefs, after.evidenceRefs))
    && (before.None? ==> after.evidenceRefs == ch.evidenceRefs)
  }

  lemma {:induction false} MergeRecords(c: AlbertChallenge, ch: AlbertChallenge)
    ensures Recorded(Some(c), ch, Promoted(Merged(c, FromAudit(ch))))
  {
    MergedRefsExtend(c.evidenceRefs, ch.evidenceRefs);
    assert MergedRefs(c.evidenceRefs, []) == c.evidenceRefs;
    assert ch.evidenceRefs != [] ==> ch.evidenceRefs[0] in MergedRefs(c.evidenceRefs, ch.evidenceRefs);
  }

  lemma {:induction false} MintRecords(cs: seq<AlbertChallenge>, ch: AlbertChallenge)
    ensures Recorded(None, ch, Promoted(Minted(cs, FromAudit(ch))))
  {
  }

  /** Evidence refs default to being appended and are replaced only on an explicit override; a field for
      which no value is supplied is left alone. */
  lemma {:induction false} EvidenceIsReplacedOnlyOnOverride(c: AlbertChallenge, u: Upsertion)
    ensures var m := Merged(c, u);
      && (u.evidenceRefs.None? ==> m.evidenceRefs == c.evidenceRefs)
      && (u.evidenceRefs.Some? && u.replaceRefs ==> m.evidenceRefs == u.evidenceRefs.value)
      && (u.evidenceRefs.Some? && !u.replaceRefs ==> Extends(c.evidenceRefs, u.evidenceRefs.value, m.evidenceRefs))
      && (u.status.None? ==> m.status == c.status) && (u.status.Some? ==> m.status == u.status.value)
      && (u.confidence.None? ==> m.confidence == c.confidence)
      && (u.confidence.Some? ==> m.confidence == u.confidence.value)
      && m.challenge == c.challenge && m.id == c.id
  {
    if u.evidenceRefs.Some? {
      MergedRefsExtend(c.evidenceRefs, u.evidenceRefs.value);
    }
  }

  /** One raised challenge changes the one entry it lands on, or appends one when it lands on none, and
      the entry is what the auditor's words and the record make of it. */
  lemma {:induction false} RaisedIsRecorded(sim: Similarity, cs: seq<AlbertChallenge>, ch: AlbertChallenge)
    requires Numbered(cs)
    ensures var cs' := RecordOne(sim, cs, ch);
      && (forall k :: 0 <= k < |cs| && LandsOn(sim, cs, ch.challenge, k) ==>
            |cs'| == |cs| && cs' == cs[k := cs'[k]] && Recorded(Some(cs[k]), ch, cs'[k]))
      && ((forall k :: 0 <= k < |cs| ==> !LandsOn(sim, cs, ch.challenge, k)) ==>
            |cs'| == |cs| + 1 && cs' == cs + [cs'[|cs|]] && Recorded(None, ch, cs'[|cs|]))
  {
    hide Recorded, LandsOn, Promoted, Merged, FromAudit, Minted, RecordOne;
    var t := Target(sim, cs, ch.challenge, "");
    forall k | 0 <= k < |cs| ensures LandsOn(sim, cs, ch.challenge, k) <==> t == Some(k) {
      LandsOnTarget(sim, cs, ch.challenge, k);
    }
    if t.Some? {
      RecordOneMerges(sim, cs, ch);
      MergeRecords(cs[t.value], ch);
    } else {
      RecordOneMints(sim, cs, ch);
      MintRecords(cs, ch);
    }
  }

  /** Some challenge that was closed is live afterwards. */
  ghost predicate Reopened(cs: seq<AlbertChallenge>, cs': seq<AlbertChallenge>) {
    exists i :: 0 <= i < |cs| && i < |cs'| && !Live(cs[i]) && Live(cs'[i])
  }

  predicate NamesClosed(cs: seq<AlbertChallenge>, prior: string) {
    prior != "" && FindById(cs, prior).Some? && !Live(cs[FindById(cs, prior).value])
  }

  lemma {:induction false} PriorIdsReachClosed(sim: Similarity, cs: seq<AlbertChallenge>, text: string, prior: string)
    ensures var t := Target(sim, cs, text, prior);
      (t.Some? && !Live(cs[t.value])) <==> NamesClosed(cs, prior)
  {
  }

  /** The module's promise that a closed challenge is never re-opened fails exactly when an explicit
      prior id names a closed one and the call brings a live status: without a status, or with a closed
      one, the challenge is rewritten but stays closed, and a match by text never reaches it. */
  lemma {:induction false} ReopensExactlyWhen(sim: Similarity, cs: seq<AlbertChallenge>, u: Upsertion)
    requires Numbered(cs)
    ensures Reopened(cs, Upserted(sim, cs, u).0) <==>
      NamesClosed(cs, u.prior) && u.status.Some? && IsLiveStatus(u.status.value)
  {
    var cs' := Upserted(sim, cs, u).0;
    PriorIdsReachClosed(sim, cs, u.challenge, u.prior);
    match Target(sim, cs, u.challenge, u.prior)
    case None =>
      NextIdIsFree(cs);
      hide Numbered, ChallengeId, FindById;
      assert cs' == cs + [Minted(cs, u)];
    case Some(k) =>
      hide Numbered, FindById, Target;
      assert cs' == cs[k := Merged(cs[k], u)];
      assert Live(cs'[k]) <==> IsLiveStatus(Or(u.status, cs[k].status));
      assert Reopened(cs, cs') <==> !Live(cs[k]) && Live(cs'[k]);
  }
}
