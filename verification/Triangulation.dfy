/** Cross-source triangulation of one field (decision/triangulation.py). */
module Triangulation {
  import opened Models
  import opened Permutations

  datatype Observation = Observation(value: string, source: Source)

  /** One entry of the groups and raw dictionaries, in first-seen order of the key. */
  datatype Group = Group(key: string, raw: string, sources: seq<Source>)

  datatype TriStatus = Corroborated | WeaklySourced | NoStatus

  datatype TriResult = TriResult(value: Option<string>, status: TriStatus, contradiction: bool, groups: seq<Group>)

  predicate IsPrimary(s: Source) { s.sourceType == SourceType.Primary || s.sourceType == SourceType.Standard }

  function QualityRank(q: SourceQuality): nat {
    match q
    case High => 3
    case Medium => 2
    case Low => 1
    case Unknown => 0
  }

  predicate HasPrimary(ss: seq<Source>) { exists s :: s in ss && IsPrimary(s) }

  function BestQuality(ss: seq<Source>): nat {
    if ss == [] then 0
    else
      var rest := BestQuality(ss[1..]);
      if QualityRank(ss[0].quality) > rest then QualityRank(ss[0].quality) else rest
  }

  function FindGroup(gs: seq<Group>, key: string): (k: Option<nat>)
    ensures k.Some? ==> k.value < |gs| && gs[k.value].key == key
    ensures k.None? ==> forall i :: 0 <= i < |gs| ==> gs[i].key != key
  {
    if gs == [] then None
    else if gs[|gs| - 1].key == key then Some(|gs| - 1)
    else FindGroup(gs[..|gs| - 1], key)
  }

  function AddTo(gs: seq<Group>, key: string, o: Observation): seq<Group> {
    match FindGroup(gs, key)
    case Some(k) => gs[k := Group(key, o.value, gs[k].sources + [o.source])]
    case None => gs + [Group(key, o.value, [o.source])]
  }

  function Grouped(norm: string -> string, obs: seq<Observation>): seq<Group> {
    if obs == [] then []
    else AddTo(Grouped(norm, obs[..|obs| - 1]), norm(obs[|obs| - 1].value), obs[|obs| - 1])
  }

  /** (has primary, number of sources, best quality), compared left to right. */
  predicate Outranks(g: Group, h: Group) {
    || (HasPrimary(g.sources) && !HasPrimary(h.sources))
    || (HasPrimary(g.sources) == HasPrimary(h.sources)
        && (|g.sources| > |h.sources|
            || (|g.sources| == |h.sources| && BestQuality(g.sources) > BestQuality(h.sources))))
  }

  /** The first group no other group outranks. */
  function Winner(gs: seq<Group>): (w: nat)
    requires gs != []
    ensures w < |gs|
    ensures forall i :: 0 <= i < |gs| ==> !Outranks(gs[i], gs[w])
    ensures forall i :: 0 <= i < w ==> Outranks(gs[w], gs[i])
  {
    if |gs| == 1 then 0
    else
      var w := Winner(gs[..|gs| - 1]);
      if Outranks(gs[|gs| - 1], gs[w]) then |gs| - 1 else w
  }

  predicate Strong(g: Group) { HasPrimary(g.sources) || |g.sources| >= 2 }

  function Triangulated(norm: string -> string, obs: seq<Observation>): TriResult {
    var gs := Grouped(norm, obs);
    if gs == [] then TriResult(None, NoStatus, false, [])
    else
      var g := gs[Winner(gs)];
      TriResult(Some(g.raw), if Strong(g) then Corroborated else WeaklySourced, |gs| > 1, gs)
  }

  /** max(groups.items(), key=group_key): the first of the greatest. */
  method FindWinner(groups: seq<Group>) returns (winner: nat)
    requires groups != []
    ensures winner == Winner(groups)
  {
    hide Outranks;
    winner := 0;
    var k := 1;
    while k < |groups|
      invariant winner < k <= |groups| && winner == Winner(groups[..k])
    {
      assert groups[..k + 1][..k] == groups[..k];
      if Outranks(groups[k], groups[winner]) {
        winner := k;
      }
      k := k + 1;
    }
    assert groups[..|groups|] == groups;
  }

  method Triangulate(norm: string -> string, obs: seq<Observation>) returns (r: TriResult)
    ensures r == Triangulated(norm, obs)
  {
    hide Winner, HasPrimary, FindGroup;
    if obs == [] {
      return TriResult(None, NoStatus, false, []);
    }
    var groups: seq<Group> := [];
    for i := 0 to |obs|
      invariant groups == Grouped(norm, obs[..i])
    {
      assert obs[..i + 1][..i] == obs[..i];
      groups := AddTo(groups, norm(obs[i].value), obs[i]);
    }
    assert obs[..|obs|] == obs;
    var winner := FindWinner(groups);
    var g := groups[winner];
    var status := if HasPrimary(g.sources) || |g.sources| >= 2 then Corroborated else WeaklySourced;
    r := TriResult(Some(g.raw), status, |groups| > 1, groups);
  }

  // ----- what the groups are -----

  /** The sources observed under a key, in order. */
  function SourcesUnder(norm: string -> string, obs: seq<Observation>, key: string): seq<Source> {
    if obs == [] then []
    else
      var front := SourcesUnder(norm, obs[..|obs| - 1], key);
      if norm(obs[|obs| - 1].value) == key then front + [obs[|obs| - 1].source] else front
  }

  ghost predicate HasKey(gs: seq<Group>, key: string) {
    exists i :: 0 <= i < |gs| && gs[i].key == key
  }

  ghost predicate DistinctKeys(gs: seq<Group>) {
    forall i, j :: 0 <= i < j < |gs| ==> gs[i].key != gs[j].key
  }

  ghost predicate GroupOf(norm: string -> string, obs: seq<Observation>, g: Group) {
    && g.sources == SourcesUnder(norm, obs, g.key) && g.sources != [] && norm(g.raw) == g.key
    && LastSpelling(norm, obs, g.key, g.raw)
  }

  /** The value as the last observation under the key spells it. */
  ghost predicate LastSpelling(norm: string -> string, obs: seq<Observation>, key: string, raw: string) {
    exists i :: 0 <= i < |obs| && obs[i].value == raw && norm(obs[i].value) == key
      && forall j :: i < j < |obs| ==> norm(obs[j].value) != key
  }

  lemma {:induction false} SpellingAppend(norm: string -> string, obs: seq<Observation>, o: Observation,
      key: string, raw: string)
    ensures norm(o.value) == key ==> LastSpelling(norm, obs + [o], key, o.value)
    ensures norm(o.value) != key && LastSpelling(norm, obs, key, raw) ==> LastSpelling(norm, obs + [o], key, raw)
  {
    var all := obs + [o];
    assert all[|obs|] == o && forall i :: 0 <= i < |obs| ==> all[i] == obs[i];
    if LastSpelling(norm, obs, key, raw) && norm(o.value) != key {
      var i :| 0 <= i < |obs| && obs[i].value == raw && norm(obs[i].value) == key
        && forall j :: i < j < |obs| ==> norm(obs[j].value) != key;
      assert all[i].value == raw;
    }
  }

  ghost predicate GroupsOf(norm: string -> string, obs: seq<Observation>, gs: seq<Group>) {
    && DistinctKeys(gs)
    && (forall i :: 0 <= i < |gs| ==> GroupOf(norm, obs, gs[i]))
    && (forall o :: o in obs ==> HasKey(gs, norm(o.value)))
  }

  lemma {:induction false} SourcesUnderAppend(norm: string -> string, obs: seq<Observation>, o: Observation,
      key: string)
    ensures SourcesUnder(norm, obs + [o], key) ==
      if norm(o.value) == key then SourcesUnder(norm, obs, key) + [o.source] else SourcesUnder(norm, obs, key)
  {
    assert (obs + [o])[..|obs|] == obs;
  }

  lemma {:induction false} AddToKeepsKeys(gs: seq<Group>, key: string, o: Observation)
    requires DistinctKeys(gs)
    ensures DistinctKeys(AddTo(gs, key, o)) && HasKey(AddTo(gs, key, o), key)
    ensures forall k :: HasKey(gs, k) ==> HasKey(AddTo(gs, key, o), k)
  {
    var gs' := AddTo(gs, key, o);
    var at := if FindGroup(gs, key).Some? then FindGroup(gs, key).value else |gs|;
    assert gs'[at].key == key;
    forall k | HasKey(gs, k) ensures HasKey(gs', k) {
      var i :| 0 <= i < |gs| && gs[i].key == k;
      assert gs'[i].key == k;
    }
  }

  lemma {:induction false} GroupGrows(norm: string -> string, obs: seq<Observation>, g: Group, o: Observation)
    requires GroupOf(norm, obs, g)
    ensures norm(o.value) != g.key ==> GroupOf(norm, obs + [o], g)
    ensures norm(o.value) == g.key ==> GroupOf(norm, obs + [o], Group(g.key, o.value, g.sources + [o.source]))
  {
    hide SourcesUnder, LastSpelling;
    SourcesUnderAppend(norm, obs, o, g.key);
    SpellingAppend(norm, obs, o, g.key, g.raw);
  }

  lemma {:induction false} GroupStarts(norm: string -> string, obs: seq<Observation>, gs: seq<Group>, o: Observation)
    requires GroupsOf(norm, obs, gs) && FindGroup(gs, norm(o.value)).None?
    ensures GroupOf(norm, obs + [o], Group(norm(o.value), o.value, [o.source]))
  {
    var key := norm(o.value);
    NobodyUnder(norm, obs, key, gs);
    hide SourcesUnder, LastSpelling, FindGroup;
    SourcesUnderAppend(norm, obs, o, key);
    SpellingAppend(norm, obs, o, key, o.value);
  }

  lemma {:induction false} AddToKeepsGroups(norm: string -> string, obs: seq<Observation>, gs: seq<Group>,
      o: Observation)
    requires GroupsOf(norm, obs, gs)
    ensures GroupsOf(norm, obs + [o], AddTo(gs, norm(o.value), o))
  {
    hide GroupOf;
    var key := norm(o.value);
    var gs' := AddTo(gs, key, o);
    AddToKeepsKeys(gs, key, o);
    forall i | 0 <= i < |gs'| ensures GroupOf(norm, obs + [o], gs'[i]) {
      if i < |gs| {
        assert GroupOf(norm, obs, gs[i]);
        assert gs[i].key == key <==> FindGroup(gs, key) == Some(i);
        GroupGrows(norm, obs, gs[i], o);
      } else {
        GroupStarts(norm, obs, gs, o);
      }
    }
    assert forall p :: p in obs + [o] <==> p in obs || p == o;
  }

  lemma {:induction false} NothingIsGrouped(norm: string -> string)
    ensures GroupsOf(norm, [], [])
  {
  }

  lemma {:induction false} GroupedIsRight(norm: string -> string, obs: seq<Observation>)
    ensures GroupsOf(norm, obs, Grouped(norm, obs))
    decreases |obs|
  {
    hide GroupsOf, AddTo;
    if obs == [] {
      NothingIsGrouped(norm);
    } else {
      var front := obs[..|obs| - 1];
      GroupedIsRight(norm, front);
      AddToKeepsGroups(norm, front, Grouped(norm, front), obs[|obs| - 1]);
      assert front + [obs[|obs| - 1]] == obs;
    }
  }

  lemma {:induction false} NobodyUnder(norm: string -> string, obs: seq<Observation>, key: string, gs: seq<Group>)
    requires forall o :: o in obs ==> HasKey(gs, norm(o.value))
    requires FindGroup(gs, key).None?
    ensures SourcesUnder(norm, obs, key) == []
    decreases |obs|
  {
    if obs != [] {
      NobodyUnder(norm, obs[..|obs| - 1], key, gs);
      assert obs[|obs| - 1] in obs;
    }
  }

  // ----- what the verdicts mean -----

  ghost predicate PrimaryObservation(o: Observation) {
    o.source.sourceType == SourceType.Primary || o.source.sourceType == SourceType.Standard
  }

  /** The best quality of some sources: high before medium before low before unknown or none. */
  lemma {:induction false} BestQualityMeans(ss: seq<Source>)
    ensures var best := BestQuality(ss);
      && (best == 3 <==> exists s :: s in ss && s.quality == SourceQuality.High)
      && (best >= 2 <==> exists s :: s in ss && s.quality in {SourceQuality.High, SourceQuality.Medium})
      && (best >= 1 <==> exists s :: s in ss && s.quality != SourceQuality.Unknown)
      && best <= 3
    decreases |ss|
  {
    if ss != [] {
      BestQualityMeans(ss[1..]);
      assert forall s :: s in ss <==> s == ss[0] || s in ss[1..];
    }
  }

  /** Two different observations with the same normalised value. */
  ghost predicate Repeated(norm: string -> string, obs: seq<Observation>) {
    exists i, j :: 0 <= i < j < |obs| && norm(obs[i].value) == norm(obs[j].value)
  }

  ghost predicate Disagree(norm: string -> string, obs: seq<Observation>) {
    exists o, o' :: o in obs && o' in obs && norm(o.value) != norm(o'.value)
  }

  /** Observation o was made, up to the spelling of its value. */
  ghost predicate Seen(norm: string -> string, obs: seq<Observation>, key: string, s: Source) {
    exists o :: o in obs && norm(o.value) == key && o.source == s
  }

  lemma {:induction false} SourcesUnderMeans(norm: string -> string, obs: seq<Observation>, key: string)
    ensures forall s :: s in SourcesUnder(norm, obs, key) <==> Seen(norm, obs, key, s)
    decreases |obs|
  {
    if obs != [] {
      var front, last := obs[..|obs| - 1], obs[|obs| - 1];
      SourcesUnderMeans(norm, front, key);
      SourcesUnderAppend(norm, front, last, key);
      assert front + [last] == obs;
      assert forall o :: o in obs <==> o in front || o == last;
      forall s ensures s in SourcesUnder(norm, obs, key) <==> Seen(norm, obs, key, s) {
        assert Seen(norm, obs, key, s) <==> Seen(norm, front, key, s) || (norm(last.value) == key && last.source == s);
      }
    }
  }

  ghost predicate TwoUnder(norm: string -> string, obs: seq<Observation>, key: string) {
    exists i, j :: 0 <= i < j < |obs| && norm(obs[i].value) == key == norm(obs[j].value)
  }

  lemma {:induction false} TwoSourcesMeans(norm: string -> string, obs: seq<Observation>, key: string)
    ensures |SourcesUnder(norm, obs, key)| >= 1 <==> exists i :: 0 <= i < |obs| && norm(obs[i].value) == key
    ensures |SourcesUnder(norm, obs, key)| >= 2 <==> TwoUnder(norm, obs, key)
    decreases |obs|
  {
    if obs != [] {
      var front, last := obs[..|obs| - 1], |obs| - 1;
      TwoSourcesMeans(norm, front, key);
      assert forall i :: 0 <= i < |front| ==> front[i] == obs[i];
      if norm(obs[last].value) == key && |SourcesUnder(norm, front, key)| >= 1 {
        var i :| 0 <= i < |front| && norm(front[i].value) == key;
        assert norm(obs[i].value) == key == norm(obs[last].value);
      }
      if TwoUnder(norm, front, key) {
        var i, j :| 0 <= i < j < |front| && norm(front[i].value) == key == norm(front[j].value);
        assert norm(obs[i].value) == key == norm(obs[j].value);
      }
      if TwoUnder(norm, obs, key) {
        var i, j :| 0 <= i < j < |obs| && norm(obs[i].value) == key == norm(obs[j].value);
        assert norm(front[i].value) == key;
        assert j < last ==> norm(front[j].value) == key;
      }
    }
  }

  lemma {:induction false} GroupFor(norm: string -> string, obs: seq<Observation>, o: Observation) returns (i: nat)
    requires o in obs
    ensures var gs := Grouped(norm, obs);
      i < |gs| && gs[i].key == norm(o.value) && GroupOf(norm, obs, gs[i]) && o.source in gs[i].sources
  {
    var gs := Grouped(norm, obs);
    GroupedIsRight(norm, obs);
    assert HasKey(gs, norm(o.value));
    i :| 0 <= i < |gs| && gs[i].key == norm(o.value);
    SourcesUnderMeans(norm, obs, gs[i].key);
    assert Seen(norm, obs, gs[i].key, o.source);
  }

  /** One strong group makes the winner strong. */
  lemma {:induction false} WinnerIsStrong(gs: seq<Group>, i: nat)
    requires i < |gs| && Strong(gs[i])
    ensures Strong(gs[Winner(gs)])
  {
    assert !Outranks(gs[i], gs[Winner(gs)]);
  }

  ghost predicate PrimaryUnder(norm: string -> string, obs: seq<Observation>, key: string) {
    exists o :: o in obs && norm(o.value) == key && PrimaryObservation(o)
  }

  lemma {:induction false} StrongMeans(norm: string -> string, obs: seq<Observation>, g: Group)
    requires GroupOf(norm, obs, g)
    ensures Strong(g) <==> PrimaryUnder(norm, obs, g.key) || TwoUnder(norm, obs, g.key)
  {
    hide SourcesUnder;
    SourcesUnderMeans(norm, obs, g.key);
    TwoSourcesMeans(norm, obs, g.key);
    if PrimaryUnder(norm, obs, g.key) {
      var o :| o in obs && norm(o.value) == g.key && PrimaryObservation(o);
      assert Seen(norm, obs, g.key, o.source);
    }
    if HasPrimary(g.sources) {
      var s :| s in g.sources && IsPrimary(s);
      assert Seen(norm, obs, g.key, s);
    }
  }

  /** A field is corroborated exactly when some source is primary or some value is observed
      twice: "two sources agree" counts observations, not distinct sources. */
  lemma {:induction false} CorroboratedMeans(norm: string -> string, obs: seq<Observation>)
    ensures Triangulated(norm, obs).status == Corroborated <==>
      (exists o :: o in obs && PrimaryObservation(o)) || Repeated(norm, obs)
    ensures Triangulated(norm, obs).status == NoStatus <==> obs == []
  {
    if obs != [] {
      hide Grouped, GroupOf, HasPrimary, Winner, PrimaryObservation;
      var gs := Grouped(norm, obs);
      var first := GroupFor(norm, obs, obs[0]);
      var g := gs[Winner(gs)];
      assert Triangulated(norm, obs).status == if Strong(g) then Corroborated else WeaklySourced;
      GroupedIsRight(norm, obs);
      StrongMeans(norm, obs, g);
      if o :| o in obs && PrimaryObservation(o) {
        var i := GroupFor(norm, obs, o);
        StrongMeans(norm, obs, gs[i]);
        WinnerIsStrong(gs, i);
      }
      if Repeated(norm, obs) {
        var a, b :| 0 <= a < b < |obs| && norm(obs[a].value) == norm(obs[b].value);
        var i := GroupFor(norm, obs, obs[a]);
        assert TwoUnder(norm, obs, gs[i].key);
        StrongMeans(norm, obs, gs[i]);
        WinnerIsStrong(gs, i);
      }
    }
  }

  lemma {:induction false} GroupHasObservation(norm: string -> string, obs: seq<Observation>, g: Group)
    returns (o: Observation)
    requires GroupOf(norm, obs, g)
    ensures o in obs && norm(o.value) == g.key
  {
    TwoSourcesMeans(norm, obs, g.key);
    var i :| 0 <= i < |obs| && norm(obs[i].value) == g.key;
    o := obs[i];
  }

  lemma {:induction false} ContradictionMeans(norm: string -> string, obs: seq<Observation>)
    ensures Triangulated(norm, obs).contradiction <==> Disagree(norm, obs)
  {
    hide AddTo, Winner, Strong, Outranks, SourcesUnder, GroupOf, HasKey;
    var gs := Grouped(norm, obs);
    assert Triangulated(norm, obs).contradiction <==> |gs| > 1;
    GroupedIsRight(norm, obs);
    if |gs| > 1 {
      var o := GroupHasObservation(norm, obs, gs[0]);
      var o' := GroupHasObservation(norm, obs, gs[1]);
      assert gs[0].key != gs[1].key;
    } else if o, o' :| o in obs && o' in obs && norm(o.value) != norm(o'.value) {
      var i := GroupFor(norm, obs, o);
      var j := GroupFor(norm, obs, o');
    }
  }

  ghost predicate OnlyPrimaryValue(norm: string -> string, obs: seq<Observation>, key: string) {
    && (exists o :: o in obs && PrimaryObservation(o))
    && (forall o :: o in obs && PrimaryObservation(o) ==> norm(o.value) == key)
  }

  /** When the primary observations all carry one value, that value is chosen. */
  lemma {:induction false} OnlyPrimaryValueWins(norm: string -> string, obs: seq<Observation>, key: string)
    requires OnlyPrimaryValue(norm, obs, key)
    ensures var r := Triangulated(norm, obs); r.value.Some? && norm(r.value.value) == key
  {
    var gs := Grouped(norm, obs);
    GroupedIsRight(norm, obs);
    var o :| o in obs && PrimaryObservation(o);
    var i := GroupFor(norm, obs, o);
    var w := Winner(gs);
    assert GroupOf(norm, obs, gs[w]) && !Outranks(gs[i], gs[w]);
    SourcesUnderMeans(norm, obs, gs[w].key);
    var s :| s in gs[w].sources && IsPrimary(s);
    var p :| p in obs && norm(p.value) == gs[w].key && p.source == s;
    assert PrimaryObservation(p);
  }

  /** The value answered is one that was observed, as its last observation spells it. */
  lemma {:induction false} ChosenIsObserved(norm: string -> string, obs: seq<Observation>)
    requires obs != []
    ensures var r := Triangulated(norm, obs);
      && r.value.Some? && (exists o :: o in obs && o.value == r.value.value)
      && LastSpelling(norm, obs, norm(r.value.value), r.value.value)
  {
    var gs := Grouped(norm, obs);
    GroupedIsRight(norm, obs);
    var first := GroupFor(norm, obs, obs[0]);
    hide Grouped, SourcesUnder, HasKey, Strong, Outranks;
    assert GroupOf(norm, obs, gs[Winner(gs)]);
    var raw := gs[Winner(gs)].raw;
    var i :| 0 <= i < |obs| && obs[i].value == raw && norm(obs[i].value) == norm(raw);
    assert obs[i] in obs;
  }

  // ----- order does not matter -----

  lemma {:induction false} RepeatedInAnyOrder(norm: string -> string, obs: seq<Observation>, obs': seq<Observation>)
    requires multiset(obs) == multiset(obs') && Repeated(norm, obs)
    ensures Repeated(norm, obs')
  {
    var i, j :| 0 <= i < j < |obs| && norm(obs[i].value) == norm(obs[j].value);
    PairOfPositions(obs, i, j);
    var i', j' := PositionsOfPair(obs', obs[i], obs[j]);
  }

  /** Permuting the observations changes neither the status nor the contradiction flag, and
      with a single primary value not the chosen value either. */
  lemma {:induction false} OrderDoesNotMatter(norm: string -> string, obs: seq<Observation>,
      obs': seq<Observation>, key: string)
    requires multiset(obs) == multiset(obs')
    ensures var r, r' := Triangulated(norm, obs), Triangulated(norm, obs');
      && r.status == r'.status && r.contradiction == r'.contradiction
      && (OnlyPrimaryValue(norm, obs, key) ==>
            r.value.Some? && r'.value.Some? && norm(r.value.value) == key == norm(r'.value.value))
  {
    assert forall o :: o in obs <==> o in multiset(obs);
    assert forall o :: o in obs' <==> o in multiset(obs');
    assert |obs| == |multiset(obs)| == |obs'|;
    CorroboratedMeans(norm, obs);
    CorroboratedMeans(norm, obs');
    ContradictionMeans(norm, obs);
    ContradictionMeans(norm, obs');
    if Repeated(norm, obs) { RepeatedInAnyOrder(norm, obs, obs'); }
    if Repeated(norm, obs') { RepeatedInAnyOrder(norm, obs', obs); }
    if OnlyPrimaryValue(norm, obs, key) {
      OnlyPrimaryValueWins(norm, obs, key);
      OnlyPrimaryValueWins(norm, obs', key);
    }
  }

  /** Seen a second time, any observation counts as corroborated. */
  lemma {:induction false} SecondSightCorroborates(norm: string -> string, obs: seq<Observation>)
    requires obs != []
    ensures Triangulated(norm, obs + obs).status == Corroborated
  {
    var twice := obs + obs;
    assert norm(twice[0].value) == norm(twice[|obs|].value);
    CorroboratedMeans(norm, twice);
  }

  // ----- the documented rules -----

  /** Two sources agree: two observations with one normalised value and different source ids. */
  ghost predicate TwoSourcesAgree(norm: string -> string, obs: seq<Observation>) {
    exists i, j :: 0 <= i < j < |obs| && norm(obs[i].value) == norm(obs[j].value)
      && obs[i].source.id != obs[j].source.id
  }

  ghost predicate SomePrimary(obs: seq<Observation>) { exists o :: o in obs && PrimaryObservation(o) }

  /** The documented rule: two sources agree, or one is primary. */
  ghost predicate DocumentedCorroborated(norm: string -> string, obs: seq<Observation>) {
    SomePrimary(obs) || TwoSourcesAgree(norm, obs)
  }

  /** Every repetition of a value comes from one and the same source id. */
  ghost predicate RepeatsOneSource(norm: string -> string, obs: seq<Observation>) {
    forall i, j :: 0 <= i < j < |obs| && norm(obs[i].value) == norm(obs[j].value) ==>
      obs[i].source.id == obs[j].source.id
  }

  /** What is corroborated by the documented rule is corroborated by the code, and the two part
      exactly when no source is primary, some value repeats, and one source does all the repeating. */
  lemma {:induction false} CorroborationPartsExactlyWhen(norm: string -> string, obs: seq<Observation>)
    ensures DocumentedCorroborated(norm, obs) ==> Triangulated(norm, obs).status == Corroborated
    ensures (Triangulated(norm, obs).status == Corroborated && !DocumentedCorroborated(norm, obs)) <==>
      !SomePrimary(obs) && Repeated(norm, obs) && RepeatsOneSource(norm, obs)
  {
    hide Triangulated, PrimaryObservation;
    CorroboratedMeans(norm, obs);
  }

  /** The documented order of two values: primary, then recency, then quality. A source carries no
      date, so recency always ties. */
  predicate DocumentedAbove(g: Group, h: Group) {
    || (HasPrimary(g.sources) && !HasPrimary(h.sources))
    || (HasPrimary(g.sources) == HasPrimary(h.sources) && BestQuality(g.sources) > BestQuality(h.sources))
  }

  /** No value is above this one by the documented order. */
  ghost predicate DocumentedBest(gs: seq<Group>, w: nat)
    requires w < |gs|
  {
    forall i :: 0 <= i < |gs| ==> !DocumentedAbove(gs[i], gs[w])
  }

  /** Value i has a primary source if any value has, and of the values alike in that it is behind no
      other, neither in the number of observations nor in quality. */
  ghost predicate AheadInBoth(gs: seq<Group>, i: nat)
    requires i < |gs|
  {
    forall j :: 0 <= j < |gs| ==>
      && (HasPrimary(gs[j].sources) ==> HasPrimary(gs[i].sources))
      && (HasPrimary(gs[j].sources) == HasPrimary(gs[i].sources) ==>
            |gs[j].sources| <= |gs[i].sources| && BestQuality(gs[j].sources) <= BestQuality(gs[i].sources))
  }

  /** A contradiction is resolved as documented exactly when one value is ahead of its peers both in
      the number of observations and in quality; otherwise numbers win over quality. */
  lemma {:induction false} ResolvedAsDocumentedExactlyWhen(norm: string -> string, obs: seq<Observation>)
    requires obs != []
    ensures var gs := Triangulated(norm, obs).groups;
      && GroupsOf(norm, obs, gs) && gs != []
      && Triangulated(norm, obs).value == Some(gs[Winner(gs)].raw)
      && (DocumentedBest(gs, Winner(gs)) <==> exists i :: 0 <= i < |gs| && AheadInBoth(gs, i))
  {
    var gs := Grouped(norm, obs);
    GroupedIsRight(norm, obs);
    var first := GroupFor(norm, obs, obs[0]);
    hide Grouped, GroupsOf, GroupOf, BestQuality, HasPrimary;
    WinnerIsDocumented(gs);
  }

  lemma {:induction false} WinnerIsDocumented(gs: seq<Group>)
    requires gs != []
    ensures DocumentedBest(gs, Winner(gs)) <==> exists i :: 0 <= i < |gs| && AheadInBoth(gs, i)
  {
    hide HasPrimary, BestQuality;
    var w := Winner(gs);
    forall j | 0 <= j < |gs| ensures !Outranks(gs[j], gs[w]) {
    }
    if DocumentedBest(gs, w) {
      assert AheadInBoth(gs, w);
    }
    if i :| 0 <= i < |gs| && AheadInBoth(gs, i) {
      assert !Outranks(gs[i], gs[w]);
      forall j | 0 <= j < |gs| ensures !DocumentedAbove(gs[j], gs[w]) {
      }
    }
  }

  /** Two observations of medium quality win over one of high quality, against the documented order. */
  lemma {:induction false} NumbersBeatQuality(norm: string -> string, s: Source)
    requires norm("10 W") != norm("12 W") && s.sourceType == SourceType.Secondary && s.quality == SourceQuality.Medium
    ensures var high := s.(id := "S-2", quality := SourceQuality.High);
      var obs := [Observation("10 W", s), Observation("10 W", s), Observation("12 W", high)];
      var r := Triangulated(norm, obs);
      r.groups != [] && r.value == Some("10 W") && !DocumentedBest(r.groups, Winner(r.groups))
  {
    var high := s.(id := "S-2", quality := SourceQuality.High);
    var a, b := Observation("10 W", s), Observation("12 W", high);
    var k, l := norm("10 W"), norm("12 W");
    assert [a, a, b][..2] == [a, a] && [a, a][..1] == [a] && [a][..0] == [];
    assert Grouped(norm, []) == [];
    assert Grouped(norm, [a]) == [Group(k, "10 W", [s])];
    var two, one := Group(k, "10 W", [s] + [s]), Group(l, "12 W", [high]);
    assert Grouped(norm, [a, a]) == [two];
    assert FindGroup([two], l) == None;
    var gs := Grouped(norm, [a, a, b]);
    assert gs == [two, one];
    TwoAgainstOne(gs, s, high);
  }

  lemma {:induction false} TwoAgainstOne(gs: seq<Group>, s: Source, high: Source)
    requires |gs| == 2 && gs[0].sources == [s] + [s] && gs[1].sources == [high]
    requires !IsPrimary(s) && !IsPrimary(high) && QualityRank(s.quality) < QualityRank(high.quality)
    ensures Winner(gs) == 0 && !DocumentedBest(gs, 0)
  {
    assert gs[0].sources[1..] == [s] && [s][1..] == [] && [high][1..] == [];
    assert BestQuality([s]) == QualityRank(s.quality) && BestQuality(gs[0].sources) == QualityRank(s.quality);
    assert Outranks(gs[0], gs[1]) && DocumentedAbove(gs[1], gs[0]);
  }
}
