/** From the observations of a grid cell to its status: source grading, per-cell synthesis, the
    exhaustion gate and the classify pass (decision/retrieval_grade.py, cell_synthesis.py,
    cell_exhaustion.py, graph.classify_grid_cells). */
module CellEvidence {
  import opened Models
  import opened Triangulation

  /** Value normalisation and the login-wall detector, left to the text layer. */
  datatype CellTools = CellTools(norm: string -> string, gated: Source -> bool)

  datatype Grade = Correct | Ambiguous | Incorrect

  function GradeSource(s: Source): Grade {
    if s.sourceType == SourceType.Primary || s.sourceType == SourceType.Standard || s.quality == SourceQuality.High
    then Correct
    else if s.quality == SourceQuality.Low || s.sourceType == SourceType.Marketing then Incorrect
    else Ambiguous
  }

  // ----- synthesize_cell -----

  datatype CellSynthesis = CellSynthesis(
    filled: set<string>, chosen: map<string, string>, contradictions: set<string>, weak: set<string>)

  function Bind(m: map<string, Source>, ss: seq<Source>): map<string, Source> {
    if ss == [] then m else Bind(m, ss[..|ss| - 1])[ss[|ss| - 1].id := ss[|ss| - 1]]
  }

  /** The source bound to each id: the last one listed. */
  function SourceById(bundles: seq<EvidenceBundle>): map<string, Source> {
    if bundles == [] then map[] else Bind(SourceById(bundles[..|bundles| - 1]), bundles[|bundles| - 1].sources)
  }

  function AllObservations(bundles: seq<EvidenceBundle>): seq<FieldObservation> {
    if bundles == [] then []
    else AllObservations(bundles[..|bundles| - 1]) + bundles[|bundles| - 1].observations
  }

  /** An observation fills a field only when the cell asks for that field and the observation's
      source is known and not graded incorrect. */
  predicate Accepted(criteria: seq<string>, sources: map<string, Source>, o: FieldObservation) {
    o.field in criteria && o.sourceRef in sources && GradeSource(sources[o.sourceRef]) != Incorrect
  }

  function Kept(criteria: seq<string>, sources: map<string, Source>, obs: seq<FieldObservation>,
      field: string): seq<Observation> {
    if obs == [] then []
    else
      var last := obs[|obs| - 1];
      var front := Kept(criteria, sources, obs[..|obs| - 1], field);
      if last.field == field && Accepted(criteria, sources, last)
      then front + [Observation(last.value, sources[last.sourceRef])] else front
  }

  function FilledFields(criteria: seq<string>, sources: map<string, Source>, obs: seq<FieldObservation>): set<string> {
    set f | f in criteria && Kept(criteria, sources, obs, f) != []
  }

  function Synthesized(tools: CellTools, cell: TaskCell, bundles: seq<EvidenceBundle>): CellSynthesis {
    SynthesizedFrom(tools, cell.successCriteria, SourceById(bundles), AllObservations(bundles))
  }

  function SynthesizedFrom(tools: CellTools, criteria: seq<string>, sources: map<string, Source>,
      obs: seq<FieldObservation>): CellSynthesis {
    Verdicts(tools, criteria, sources, obs, FilledFields(criteria, sources, obs))
  }

  /** The synthesis restricted to some of the filled fields. */
  function Verdicts(tools: CellTools, criteria: seq<string>, sources: map<string, Source>,
      obs: seq<FieldObservation>, fields: set<string>): CellSynthesis
    requires fields <= FilledFields(criteria, sources, obs)
  {
    CellSynthesis(
      fields,
      map f | f in fields :: FieldVerdict(tools, criteria, sources, obs, f).value.value,
      set f | f in fields && FieldVerdict(tools, criteria, sources, obs, f).contradiction,
      set f | f in fields && FieldVerdict(tools, criteria, sources, obs, f).status == WeaklySourced)
  }

  function FieldVerdict(tools: CellTools, criteria: seq<string>, sources: map<string, Source>,
      obs: seq<FieldObservation>, f: string): (r: TriResult)
    ensures Kept(criteria, sources, obs, f) != [] ==> r.value.Some? && r.status != NoStatus
  {
    CorroboratedMeans(tools.norm, Kept(criteria, sources, obs, f));
    Triangulated(tools.norm, Kept(criteria, sources, obs, f))
  }

  method CollectSources(bundles: seq<EvidenceBundle>) returns (m: map<string, Source>)
    ensures m == SourceById(bundles)
  {
    m := map[];
    for b := 0 to |bundles|
      invariant m == SourceById(bundles[..b])
    {
      assert bundles[..b + 1][..b] == bundles[..b];
      var ss := bundles[b].sources;
      ghost var before := m;
      for k := 0 to |ss|
        invariant m == Bind(before, ss[..k])
      {
        assert ss[..k + 1][..k] == ss[..k];
        m := m[ss[k].id := ss[k]];
      }
      assert ss[..|ss|] == ss;
    }
    assert bundles[..|bundles|] == bundles;
  }

  /** The per_field dictionary: the accepted observations of every field that has one. */
  ghost predicate PerField(criteria: seq<string>, sources: map<string, Source>, obs: seq<FieldObservation>,
      perField: map<string, seq<Observation>>) {
    && perField.Keys == FilledFields(criteria, sources, obs)
    && forall f :: f in perField ==> perField[f] == Kept(criteria, sources, obs, f)
  }

  method AcceptOne(criteria: seq<string>, sources: map<string, Source>, ghost obs: seq<FieldObservation>,
      o: FieldObservation, perField: map<string, seq<Observation>>)
    returns (perField': map<string, seq<Observation>>)
    requires PerField(criteria, sources, obs, perField)
    ensures PerField(criteria, sources, obs + [o], perField')
  {
    assert (obs + [o])[..|obs|] == obs;
    perField' := perField;
    if Accepted(criteria, sources, o) {
      var seen := Observation(o.value, sources[o.sourceRef]);
      perField' := perField[o.field := (if o.field in perField then perField[o.field] else []) + [seen]];
    }
  }

  method AcceptAll(criteria: seq<string>, sources: map<string, Source>, bundles: seq<EvidenceBundle>)
    returns (perField: map<string, seq<Observation>>)
    ensures PerField(criteria, sources, AllObservations(bundles), perField)
  {
    perField := map[];
    for b := 0 to |bundles|
      invariant PerField(criteria, sources, AllObservations(bundles[..b]), perField)
    {
      assert bundles[..b + 1][..b] == bundles[..b];
      var obs := bundles[b].observations;
      ghost var before := AllObservations(bundles[..b]);
      assert before + obs[..0] == before;
      for k := 0 to |obs|
        invariant PerField(criteria, sources, before + obs[..k], perField)
      {
        perField := AcceptOne(criteria, sources, before + obs[..k], obs[k], perField);
        assert before + obs[..k] + [obs[k]] == before + obs[..k + 1];
      }
      assert obs[..|obs|] == obs;
    }
    assert bundles[..|bundles|] == bundles;
  }

  /** What one triangulated field adds to the synthesis. */
  function WithField(syn: CellSynthesis, f: string, tri: TriResult): CellSynthesis
    requires tri.value.Some? && tri.status != NoStatus
  {
    CellSynthesis(
      syn.filled + {f}, syn.chosen[f := tri.value.value],
      if tri.contradiction then syn.contradictions + {f} else syn.contradictions,
      if tri.status == WeaklySourced then syn.weak + {f} else syn.weak)
  }

  method AddField(syn: CellSynthesis, f: string, tri: TriResult) returns (r: CellSynthesis)
    requires tri.value.Some? && tri.status != NoStatus
    ensures r == WithField(syn, f, tri)
  {
    r := syn;
    if tri.status == Corroborated || tri.status == WeaklySourced {
      r := r.(filled := r.filled + {f}, chosen := r.chosen[f := tri.value.value]);
      if tri.status == WeaklySourced {
        r := r.(weak := r.weak + {f});
      }
    }
    if tri.contradiction {
      r := r.(contradictions := r.contradictions + {f});
    }
  }

  lemma {:induction false} VerdictsGrow(tools: CellTools, criteria: seq<string>, sources: map<string, Source>,
      obs: seq<FieldObservation>, fields: set<string>, f: string)
    requires fields + {f} <= FilledFields(criteria, sources, obs) && f !in fields
    ensures var tri := FieldVerdict(tools, criteria, sources, obs, f);
      && tri.value.Some? && tri.status != NoStatus
      && Verdicts(tools, criteria, sources, obs, fields + {f})
         == WithField(Verdicts(tools, criteria, sources, obs, fields), f, tri)
  {
    hide Kept, Triangulated, Accepted;
    var before := Verdicts(tools, criteria, sources, obs, fields);
    var after := Verdicts(tools, criteria, sources, obs, fields + {f});
    var tri := FieldVerdict(tools, criteria, sources, obs, f);
    assert f in FilledFields(criteria, sources, obs);
    assert after.chosen == before.chosen[f := tri.value.value];
    assert after.contradictions == if tri.contradiction then before.contradictions + {f} else before.contradictions;
    assert after.weak == if tri.status == WeaklySourced then before.weak + {f} else before.weak;
  }

  method SynthesizeCell(tools: CellTools, cell: TaskCell, bundles: seq<EvidenceBundle>) returns (syn: CellSynthesis)
    ensures syn == Synthesized(tools, cell, bundles)
  {
    var criteria := cell.successCriteria;
    var sources := CollectSources(bundles);
    ghost var obs := AllObservations(bundles);
    var perField := AcceptAll(criteria, sources, bundles);
    syn := CellSynthesis({}, map[], {}, {});
    var todo := perField.Keys;
    while todo != {}
      invariant todo <= perField.Keys
      invariant syn == Verdicts(tools, criteria, sources, obs, perField.Keys - todo)
      decreases todo
    {
      var f :| f in todo;
      VerdictsGrow(tools, criteria, sources, obs, perField.Keys - todo, f);
      var tri := Triangulate(tools.norm, perField[f]);
      syn := AddField(syn, f, tri);
      assert perField.Keys - (todo - {f}) == (perField.Keys - todo) + {f};
      todo := todo - {f};
    }
    assert perField.Keys - todo == perField.Keys;
  }

  lemma {:induction false} KeptMeans(criteria: seq<string>, sources: map<string, Source>,
      obs: seq<FieldObservation>, field: string)
    ensures Kept(criteria, sources, obs, field) != [] <==>
      exists o :: o in obs && o.field == field && Accepted(criteria, sources, o)
    decreases |obs|
  {
    if obs != [] {
      KeptMeans(criteria, sources, obs[..|obs| - 1], field);
      assert forall o :: o in obs <==> o in obs[..|obs| - 1] || o == obs[|obs| - 1];
    }
  }

  /** A field is filled exactly when the cell asks for it and one accepted observation reports it. */
  lemma {:induction false} FilledMeans(tools: CellTools, cell: TaskCell, bundles: seq<EvidenceBundle>, field: string)
    ensures field in Synthesized(tools, cell, bundles).filled <==>
      exists o :: o in AllObservations(bundles) && o.field == field
        && Accepted(cell.successCriteria, SourceById(bundles), o)
  {
    KeptMeans(cell.successCriteria, SourceById(bundles), AllObservations(bundles), field);
  }

  // ----- exhaustion and classification -----

  predicate CriteriaMet(cell: TaskCell, filled: set<string>) {
    cell.successCriteria != [] && forall c :: c in cell.successCriteria ==> c in filled
  }

  function ClassifyCell(cell: TaskCell, filled: set<string>, gated: bool, exhausted: bool): CellStatus {
    if CriteriaMet(cell, filled) then CellStatus.Covered
    else if gated && exists c :: c in cell.successCriteria && c !in filled then CellStatus.Blocked
    else if filled != {} then CellStatus.Partial
    else if exhausted then CellStatus.Na
    else CellStatus.Open
  }

  function BundlesOf(evidence: seq<EvidenceBundle>, cellId: string): seq<EvidenceBundle> {
    if evidence == [] then []
    else
      var front := BundlesOf(evidence[..|evidence| - 1], cellId);
      if evidence[|evidence| - 1].issueId == Some(cellId) then front + [evidence[|evidence| - 1]] else front
  }

  predicate AnyGated(tools: CellTools, bundles: seq<EvidenceBundle>) {
    exists b, s :: b in bundles && s in b.sources && tools.gated(s)
  }

  predicate AnyExhausted(bundles: seq<EvidenceBundle>) { exists b :: b in bundles && b.publicExhausted }

  function NewStatus(tools: CellTools, cell: TaskCell, bundles: seq<EvidenceBundle>): CellStatus {
    ClassifyCell(cell, Synthesized(tools, cell, bundles).filled, AnyGated(tools, bundles), AnyExhausted(bundles))
  }

  /** One cell after a classify pass; a cell without evidence is left alone. */
  function Reclassified(tools: CellTools, cell: TaskCell, evidence: seq<EvidenceBundle>): TaskCell {
    var bundles := BundlesOf(evidence, cell.id);
    if bundles == [] then cell
    else
      var status := NewStatus(tools, cell, bundles);
      var count := |Synthesized(tools, cell, bundles).filled|;
      var changed := Some(status) != cell.lastStatus || count != cell.lastFilled;
      cell.(status := status, lastStatus := Some(status), lastFilled := count,
            stalledCycles := if changed then 0 else cell.stalledCycles + 1)
  }

  function ReclassifiedGrid(tools: CellTools, cells: seq<TaskCell>, evidence: seq<EvidenceBundle>): (r: seq<TaskCell>)
    ensures |r| == |cells|
    ensures forall i :: 0 <= i < |cells| ==> r[i] == Reclassified(tools, cells[i], evidence)
  {
    seq(|cells|, i requires 0 <= i < |cells| => Reclassified(tools, cells[i], evidence))
  }

  method ClassifyGridCells(state: ResearchState, tools: CellTools) returns (moved: seq<string>)
    modifies state`taskGrid
    ensures state.taskGrid == match old(state.taskGrid)
                              case None => None
                              case Some(cells) => Some(ReclassifiedGrid(tools, cells, state.evidence))
  {
    moved := [];
    if state.taskGrid.None? {
      return;
    }
    var cells := state.taskGrid.value;
    var done: seq<TaskCell> := [];
    for i := 0 to |cells|
      invariant |done| == i
      invariant forall j :: 0 <= j < i ==> done[j] == Reclassified(tools, cells[j], state.evidence)
      invariant state.taskGrid == old(state.taskGrid)
    {
      var cell := cells[i];
      var bundles := BundlesOf(state.evidence, cell.id);
      if bundles != [] {
        var syn := SynthesizeCell(tools, cell, bundles);
        var status := ClassifyCell(cell, syn.filled, AnyGated(tools, bundles), AnyExhausted(bundles));
        var changed := Some(status) != cell.lastStatus || |syn.filled| != cell.lastFilled;
        cell := cell.(status := status, lastStatus := Some(status), lastFilled := |syn.filled|,
                      stalledCycles := if changed then 0 else cell.stalledCycles + 1);
        if changed {
          moved := moved + [cell.id];
        }
      }
      done := done + [cell];
    }
    assert done == ReclassifiedGrid(tools, cells, state.evidence);
    state.taskGrid := Some(done);
  }

  /** The field is one the cell asks for, and the evidence holds an accepted observation of it. */
  ghost predicate Reported(cell: TaskCell, bundles: seq<EvidenceBundle>, field: string) {
    exists o :: o in AllObservations(bundles) && o.field == field
      && Accepted(cell.successCriteria, SourceById(bundles), o)
  }

  /** Something the cell asks for is reported. */
  ghost predicate SomeReported(cell: TaskCell, bundles: seq<EvidenceBundle>) {
    exists field: string :: Reported(cell, bundles, field)
  }

  ghost predicate AllReported(cell: TaskCell, bundles: seq<EvidenceBundle>) {
    cell.successCriteria != [] && forall c :: c in cell.successCriteria ==> Reported(cell, bundles, c)
  }

  /** Public sources end at a login wall while a criterion is still missing. */
  ghost predicate NeedsInternal(tools: CellTools, cell: TaskCell, bundles: seq<EvidenceBundle>) {
    && (exists b, s :: b in bundles && s in b.sources && tools.gated(s))
    && (exists c :: c in cell.successCriteria && !Reported(cell, bundles, c))
  }

  /** What each of the five statuses the code decides means in terms of the evidence. */
  lemma {:induction false} StatusMeans(tools: CellTools, cell: TaskCell, bundles: seq<EvidenceBundle>)
    ensures var status := NewStatus(tools, cell, bundles);
      var covered, blocked := AllReported(cell, bundles), NeedsInternal(tools, cell, bundles);
      var exhausted := exists b :: b in bundles && b.publicExhausted;
      && (status == CellStatus.Covered <==> covered)
      && (status == CellStatus.Blocked <==> blocked)
      && (status == CellStatus.Partial <==> !covered && !blocked && SomeReported(cell, bundles))
      && (status == CellStatus.Na <==> !covered && !blocked && !SomeReported(cell, bundles) && exhausted)
      && (status == CellStatus.Open <==> !covered && !blocked && !SomeReported(cell, bundles) && !exhausted)
  {
    hide Synthesized, SourceById, AllObservations, Accepted;
    forall c: string ensures Reported(cell, bundles, c) <==> c in Synthesized(tools, cell, bundles).filled {
      FilledMeans(tools, cell, bundles, c);
    }
  }

  // ----- what the evidence of a cell is -----

  /** A source is usable unless it is of low quality or marketing, and then still when it is a primary
      or standard one or of high quality. */
  lemma {:induction false} GradeMeans(s: Source)
    ensures var strong := s.sourceType in {SourceType.Primary, SourceType.Standard} || s.quality == SourceQuality.High;
      var poor := s.quality == SourceQuality.Low || s.sourceType == SourceType.Marketing;
      && (GradeSource(s) == Correct <==> strong)
      && (GradeSource(s) == Incorrect <==> !strong && poor)
      && (GradeSource(s) == Ambiguous <==> !strong && !poor)
  {
  }

  /** All sources the bundles list, in order. */
  function AllSources(bundles: seq<EvidenceBundle>): seq<Source> {
    if bundles == [] then [] else AllSources(bundles[..|bundles| - 1]) + bundles[|bundles| - 1].sources
  }

  lemma {:induction false} BindAppends(before: seq<Source>, ss: seq<Source>)
    ensures Bind(Bind(map[], before), ss) == Bind(map[], before + ss)
    decreases |ss|
  {
    if ss == [] {
      assert before + ss == before;
    } else {
      BindAppends(before, ss[..|ss| - 1]);
      assert (before + ss)[..|before + ss| - 1] == before + ss[..|ss| - 1];
    }
  }

  lemma {:induction false} SourcesAreBound(bundles: seq<EvidenceBundle>)
    ensures SourceById(bundles) == Bind(map[], AllSources(bundles))
    decreases |bundles|
  {
    if bundles != [] {
      SourcesAreBound(bundles[..|bundles| - 1]);
      BindAppends(AllSources(bundles[..|bundles| - 1]), bundles[|bundles| - 1].sources);
    }
  }

  /** Position i is the last one listing its id. */
  ghost predicate LastOfId(ss: seq<Source>, i: nat)
    requires i < |ss|
  {
    forall j :: i < j < |ss| ==> ss[j].id != ss[i].id
  }

  lemma {:induction false} BoundMeans(ss: seq<Source>, i: nat)
    requires i < |ss|
    ensures ss[i].id in Bind(map[], ss)
    ensures LastOfId(ss, i) ==> Bind(map[], ss)[ss[i].id] == ss[i]
    decreases |ss|
  {
    var front, last := ss[..|ss| - 1], ss[|ss| - 1];
    if i < |front| {
      BoundMeans(front, i);
      assert LastOfId(ss, i) ==> LastOfId(front, i) && last.id != ss[i].id;
    }
  }

  /** An id stands for the last source any bundle of the cell lists under it. */
  lemma {:induction false} LastSourceCounts(bundles: seq<EvidenceBundle>, i: nat)
    requires i < |AllSources(bundles)|
    ensures var ss := AllSources(bundles);
      && ss[i].id in SourceById(bundles)
      && (LastOfId(ss, i) ==> SourceById(bundles)[ss[i].id] == ss[i])
  {
    SourcesAreBound(bundles);
    BoundMeans(AllSources(bundles), i);
  }

  /** A bundle counts for a cell exactly when it is labelled with it. */
  lemma {:induction false} BundlesOfMeans(evidence: seq<EvidenceBundle>, cellId: string, b: EvidenceBundle)
    ensures b in BundlesOf(evidence, cellId) <==> b in evidence && b.issueId == Some(cellId)
    ensures multiset(BundlesOf(evidence, cellId))[b] == if b.issueId == Some(cellId) then multiset(evidence)[b] else 0
    decreases |evidence|
  {
    if evidence != [] {
      var front, last := evidence[..|evidence| - 1], evidence[|evidence| - 1];
      BundlesOfMeans(front, cellId, b);
      assert evidence == front + [last];
      assert multiset(evidence) == multiset(front) + multiset{last};
      assert multiset(BundlesOf(front, cellId) + [last]) == multiset(BundlesOf(front, cellId)) + multiset{last};
    }
  }

  /** The bookkeeping of a classify pass: the status and the count it compares with next time, and a
      stall counter that starts again whenever one of the two moved. */
  lemma {:induction false} StallsAreCounted(tools: CellTools, cell: TaskCell, evidence: seq<EvidenceBundle>)
    ensures var r, bundles := Reclassified(tools, cell, evidence), BundlesOf(evidence, cell.id);
      var filled := |Synthesized(tools, cell, bundles).filled|;
      && (bundles == [] ==> r == cell)
      && (bundles != [] ==>
            && r.status == NewStatus(tools, cell, bundles) && r.lastStatus == Some(r.status) && r.lastFilled == filled
            && (cell.lastStatus == Some(r.status) && cell.lastFilled == filled ==>
                  r.stalledCycles == cell.stalledCycles + 1)
            && (cell.lastStatus != Some(r.status) || cell.lastFilled != filled ==> r.stalledCycles == 0)
            && r.id == cell.id && r.successCriteria == cell.successCriteria && r.impact == cell.impact)
  {
    hide NewStatus, Synthesized, BundlesOf;
  }

  /** Observation i of the list is an accepted one of the field. */
  ghost predicate Counts(criteria: seq<string>, sources: map<string, Source>, obs: seq<FieldObservation>,
      field: string, i: nat)
    requires i < |obs|
  {
    obs[i].field == field && Accepted(criteria, sources, obs[i])
  }

  lemma {:induction false} CountsPrefix(criteria: seq<string>, sources: map<string, Source>, obs: seq<FieldObservation>,
      field: string)
    requires obs != []
    ensures var front := obs[..|obs| - 1];
      forall i :: 0 <= i < |front| ==>
        (front[i] == obs[i]
         && (Counts(criteria, sources, front, field, i) <==> Counts(criteria, sources, obs, field, i)))
  {
  }

  lemma {:induction false} KeptElements(criteria: seq<string>, sources: map<string, Source>, obs: seq<FieldObservation>,
      field: string, k: Observation)
    ensures k in Kept(criteria, sources, obs, field) <==>
      exists i :: 0 <= i < |obs| && Counts(criteria, sources, obs, field, i)
        && k == Observation(obs[i].value, sources[obs[i].sourceRef])
    decreases |obs|
  {
    if obs != [] {
      var front, last := obs[..|obs| - 1], |obs| - 1;
      KeptElements(criteria, sources, front, field, k);
      CountsPrefix(criteria, sources, obs, field);
      if Counts(criteria, sources, obs, field, last) {
        assert Kept(criteria, sources, obs, field)
          == Kept(criteria, sources, front, field) + [Observation(obs[last].value, sources[obs[last].sourceRef])];
      }
    }
  }

  /** Two accepted observations of the field have one normalised value. */
  ghost predicate SaidTwice(tools: CellTools, criteria: seq<string>, sources: map<string, Source>,
      obs: seq<FieldObservation>, field: string)
  {
    exists i, j :: 0 <= i < j < |obs| && Counts(criteria, sources, obs, field, i)
      && Counts(criteria, sources, obs, field, j) && tools.norm(obs[i].value) == tools.norm(obs[j].value)
  }

  lemma {:induction false} RepeatedAppend(norm: string -> string, front: seq<Observation>, last: Observation)
    ensures Repeated(norm, front + [last]) <==>
      Repeated(norm, front) || exists k :: k in front && norm(k.value) == norm(last.value)
  {
    var all := front + [last];
    assert all[|front|] == last && forall i :: 0 <= i < |front| ==> all[i] == front[i];
    if k :| k in front && norm(k.value) == norm(last.value) {
      var i :| 0 <= i < |front| && front[i] == k;
      assert norm(all[i].value) == norm(all[|front|].value);
    }
    if Repeated(norm, front) {
      var i, j :| 0 <= i < j < |front| && norm(front[i].value) == norm(front[j].value);
      assert norm(all[i].value) == norm(all[j].value);
    }
    if Repeated(norm, all) {
      var i, j :| 0 <= i < j < |all| && norm(all[i].value) == norm(all[j].value);
      assert all[i] in front;
      assert j < |front| ==> norm(front[i].value) == norm(front[j].value);
    }
  }

  lemma {:induction false} KeptRepeats(tools: CellTools, criteria: seq<string>, sources: map<string, Source>,
      obs: seq<FieldObservation>, field: string)
    ensures Repeated(tools.norm, Kept(criteria, sources, obs, field)) <==>
      SaidTwice(tools, criteria, sources, obs, field)
    decreases |obs|
  {
    if obs != [] {
      var front, last := obs[..|obs| - 1], |obs| - 1;
      KeptRepeats(tools, criteria, sources, front, field);
      CountsPrefix(criteria, sources, obs, field);
      assert SaidTwice(tools, criteria, sources, front, field) ==> SaidTwice(tools, criteria, sources, obs, field);
      if Counts(criteria, sources, obs, field, last) {
        var kept := Kept(criteria, sources, front, field);
        var k := Observation(obs[last].value, sources[obs[last].sourceRef]);
        RepeatedAppend(tools.norm, kept, k);
        LastRepeats(tools, criteria, sources, obs, field);
      }
    }
  }

  lemma {:induction false} LastRepeats(tools: CellTools, criteria: seq<string>, sources: map<string, Source>,
      obs: seq<FieldObservation>, field: string)
    requires obs != [] && Counts(criteria, sources, obs, field, |obs| - 1)
    ensures (exists k :: k in Kept(criteria, sources, obs[..|obs| - 1], field)
               && tools.norm(k.value) == tools.norm(obs[|obs| - 1].value)) <==>
            (exists i :: 0 <= i < |obs| - 1 && Counts(criteria, sources, obs, field, i)
               && tools.norm(obs[i].value) == tools.norm(obs[|obs| - 1].value))
  {
    hide Kept;
    var front, last := obs[..|obs| - 1], |obs| - 1;
    CountsPrefix(criteria, sources, obs, field);
    if k :| k in Kept(criteria, sources, front, field) && tools.norm(k.value) == tools.norm(obs[last].value) {
      KeptElements(criteria, sources, front, field, k);
    }
    if i :| 0 <= i < |obs| - 1 && Counts(criteria, sources, obs, field, i)
              && tools.norm(obs[i].value) == tools.norm(obs[last].value) {
      assert Counts(criteria, sources, front, field, i);
      var k := Observation(obs[i].value, sources[obs[i].sourceRef]);
      KeptElements(criteria, sources, front, field, k);
    }
  }

  /** Two accepted observations of the field differ after normalisation. */
  ghost predicate SaidDifferently(tools: CellTools, criteria: seq<string>, sources: map<string, Source>,
      obs: seq<FieldObservation>, field: string)
  {
    exists i, j :: 0 <= i < |obs| && 0 <= j < |obs| && Counts(criteria, sources, obs, field, i)
      && Counts(criteria, sources, obs, field, j) && tools.norm(obs[i].value) != tools.norm(obs[j].value)
  }

  /** An accepted observation of the field comes from a primary or standard source. */
  ghost predicate SaidByPrimary(criteria: seq<string>, sources: map<string, Source>, obs: seq<FieldObservation>,
      field: string)
  {
    exists i :: 0 <= i < |obs| && Counts(criteria, sources, obs, field, i)
      && sources[obs[i].sourceRef].sourceType in {SourceType.Primary, SourceType.Standard}
  }

  ghost predicate SaidAs(criteria: seq<string>, sources: map<string, Source>, obs: seq<FieldObservation>,
      field: string, value: string)
  {
    exists i :: 0 <= i < |obs| && Counts(criteria, sources, obs, field, i) && obs[i].value == value
  }

  lemma {:induction false} KeptPosition(criteria: seq<string>, sources: map<string, Source>, obs: seq<FieldObservation>,
      field: string, k: Observation) returns (i: nat)
    requires k in Kept(criteria, sources, obs, field)
    ensures i < |obs| && Counts(criteria, sources, obs, field, i)
    ensures k.value == obs[i].value && k.source == sources[obs[i].sourceRef]
  {
    KeptElements(criteria, sources, obs, field, k);
    i :| 0 <= i < |obs| && Counts(criteria, sources, obs, field, i)
      && k == Observation(obs[i].value, sources[obs[i].sourceRef]);
  }

  lemma {:induction false} KeptDisagrees(tools: CellTools, criteria: seq<string>, sources: map<string, Source>,
      obs: seq<FieldObservation>, field: string)
    ensures Disagree(tools.norm, Kept(criteria, sources, obs, field)) <==>
      SaidDifferently(tools, criteria, sources, obs, field)
  {
    var kept := Kept(criteria, sources, obs, field);
    hide Kept;
    if k, l :| k in kept && l in kept && tools.norm(k.value) != tools.norm(l.value) {
      var i := KeptPosition(criteria, sources, obs, field, k);
      var j := KeptPosition(criteria, sources, obs, field, l);
      assert SaidDifferently(tools, criteria, sources, obs, field);
    }
    if i, j :| 0 <= i < |obs| && 0 <= j < |obs| && Counts(criteria, sources, obs, field, i)
                 && Counts(criteria, sources, obs, field, j) && tools.norm(obs[i].value) != tools.norm(obs[j].value) {
      var k := Observation(obs[i].value, sources[obs[i].sourceRef]);
      var l := Observation(obs[j].value, sources[obs[j].sourceRef]);
      KeptElements(criteria, sources, obs, field, k);
      KeptElements(criteria, sources, obs, field, l);
    }
  }

  lemma {:induction false} KeptPrimary(criteria: seq<string>, sources: map<string, Source>,
      obs: seq<FieldObservation>, field: string)
    ensures (exists k :: k in Kept(criteria, sources, obs, field) && PrimaryObservation(k)) <==>
      SaidByPrimary(criteria, sources, obs, field)
  {
    var kept := Kept(criteria, sources, obs, field);
    hide Kept;
    if k :| k in kept && PrimaryObservation(k) {
      var i := KeptPosition(criteria, sources, obs, field, k);
    }
    if i :| 0 <= i < |obs| && Counts(criteria, sources, obs, field, i)
              && sources[obs[i].sourceRef].sourceType in {SourceType.Primary, SourceType.Standard} {
      var k := Observation(obs[i].value, sources[obs[i].sourceRef]);
      KeptElements(criteria, sources, obs, field, k);
      assert PrimaryObservation(k);
    }
  }

  /** What the synthesis says of a filled field, in terms of its accepted observations: the chosen value
      is one of theirs; it is contradicted exactly when two of them differ after normalisation; and it is
      weakly sourced exactly when none is from a primary or standard source and no two agree. */
  lemma {:induction false} SynthesisMeans(tools: CellTools, cell: TaskCell, bundles: seq<EvidenceBundle>, f: string)
    requires f in Synthesized(tools, cell, bundles).filled
    ensures var syn, criteria := Synthesized(tools, cell, bundles), cell.successCriteria;
      var obs, sources := AllObservations(bundles), SourceById(bundles);
      && f in syn.chosen && SaidAs(criteria, sources, obs, f, syn.chosen[f])
      && (f in syn.contradictions <==> SaidDifferently(tools, criteria, sources, obs, f))
      && (f in syn.weak <==> !SaidTwice(tools, criteria, sources, obs, f) && !SaidByPrimary(criteria, sources, obs, f))
  {
    var criteria, sources, obs := cell.successCriteria, SourceById(bundles), AllObservations(bundles);
    var kept := Kept(criteria, sources, obs, f);
    hide Kept, Accepted, SourceById, AllObservations, Triangulated, Repeated, Disagree, SaidTwice, SaidDifferently,
      SaidByPrimary, PrimaryObservation;
    KeptRepeats(tools, criteria, sources, obs, f);
    KeptDisagrees(tools, criteria, sources, obs, f);
    KeptPrimary(criteria, sources, obs, f);
    CorroboratedMeans(tools.norm, kept);
    ContradictionMeans(tools.norm, kept);
    ChosenIsObserved(tools.norm, kept);
    var o :| o in kept && o.value == Triangulated(tools.norm, kept).value.value;
    var i := KeptPosition(criteria, sources, obs, f, o);
    assert SaidAs(criteria, sources, obs, f, o.value);
  }

  // ----- evidence only helps -----

  /** No id bound to a usable source gets bound to an unusable one. */
  ghost predicate NoDowngrade(before: map<string, Source>, after: map<string, Source>) {
    forall id :: id in before && GradeSource(before[id]) != Incorrect ==>
      id in after && GradeSource(after[id]) != Incorrect
  }

  /** Not downgrading is exactly what keeps every accepted observation accepted. */
  lemma {:induction false} NoDowngradeIsExact(criteria: seq<string>, before: map<string, Source>,
      after: map<string, Source>)
    requires criteria != []
    ensures NoDowngrade(before, after) <==>
      forall o :: Accepted(criteria, before, o) ==> Accepted(criteria, after, o)
  {
    if forall o :: Accepted(criteria, before, o) ==> Accepted(criteria, after, o) {
      forall id | id in before && GradeSource(before[id]) != Incorrect
        ensures id in after && GradeSource(after[id]) != Incorrect
      {
        assert criteria[0] in criteria;
        assert Accepted(criteria, before, FieldObservation(criteria[0], "", id));
      }
    }
  }

  lemma {:induction false} BundlesOfAppend(evidence: seq<EvidenceBundle>, more: seq<EvidenceBundle>, cellId: string)
    ensures BundlesOf(evidence + more, cellId) == BundlesOf(evidence, cellId) + BundlesOf(more, cellId)
    decreases |more|
  {
    var all := evidence + more;
    if more == [] {
      assert all == evidence;
    } else {
      BundlesOfAppend(evidence, more[..|more| - 1], cellId);
      assert all[..|all| - 1] == evidence + more[..|more| - 1];
    }
  }

  lemma {:induction false} ObservationsAppend(bs: seq<EvidenceBundle>, more: seq<EvidenceBundle>)
    ensures AllObservations(bs + more) == AllObservations(bs) + AllObservations(more)
    decreases |more|
  {
    var all := bs + more;
    if more == [] {
      assert all == bs;
    } else {
      ObservationsAppend(bs, more[..|more| - 1]);
      assert all[..|all| - 1] == bs + more[..|more| - 1];
    }
  }

  /** Adding evidence that downgrades no source id leaves every filled field filled, so a covered
      cell stays covered on every later classify pass. */
  lemma {:induction false} CoveredIsAbsorbing(tools: CellTools, cell: TaskCell, evidence: seq<EvidenceBundle>,
      more: seq<EvidenceBundle>)
    requires NoDowngrade(SourceById(BundlesOf(evidence, cell.id)), SourceById(BundlesOf(evidence + more, cell.id)))
    ensures Synthesized(tools, cell, BundlesOf(evidence, cell.id)).filled
         <= Synthesized(tools, cell, BundlesOf(evidence + more, cell.id)).filled
    ensures BundlesOf(evidence, cell.id) != [] && Reclassified(tools, cell, evidence).status == CellStatus.Covered ==>
      Reclassified(tools, Reclassified(tools, cell, evidence), evidence + more).status == CellStatus.Covered
  {
    var bs, bs' := BundlesOf(evidence, cell.id), BundlesOf(evidence + more, cell.id);
    BundlesOfAppend(evidence, more, cell.id);
    ObservationsAppend(bs, BundlesOf(more, cell.id));
    forall f | f in Synthesized(tools, cell, bs).filled ensures f in Synthesized(tools, cell, bs').filled {
      FilledMeans(tools, cell, bs, f);
      FilledMeans(tools, cell, bs', f);
      var o :| o in AllObservations(bs) && o.field == f && Accepted(cell.successCriteria, SourceById(bs), o);
      assert o in AllObservations(bs');
      assert Accepted(cell.successCriteria, SourceById(bs'), o);
    }
  }

  /** Without that condition evidence can hurt: re-using a source id for a marketing page takes a
      covered cell back to an uncovered one. */
  lemma {:induction false} RebindingUncovers(tools: CellTools, cell: TaskCell, first: EvidenceBundle,
      second: EvidenceBundle)
    requires cell.successCriteria == ["speed"]
    requires first.sources == [Source("S-0", "", None, SourceType.Secondary, SourceQuality.Medium, "web", "")]
    requires first.observations == [FieldObservation("speed", "1 Gb", "S-0")]
    requires second.sources == [first.sources[0].(sourceType := SourceType.Marketing)] && second.observations == []
    ensures NewStatus(tools, cell, [first]) == CellStatus.Covered
    ensures NewStatus(tools, cell, [first, second]) != CellStatus.Covered
  {
    var o := first.observations[0];
    OneBundle([], first);
    OneBundle([first], second);
    assert [] + [first] == [first] && [first] + [second] == [first, second];
    assert SourceById([first])["S-0"] == first.sources[0];
    assert SourceById([first, second])["S-0"] == second.sources[0];
    assert AllObservations([first]) == [o] && AllObservations([first, second]) == [o];
    assert o in AllObservations([first]) && Accepted(cell.successCriteria, SourceById([first]), o);
    StatusMeans(tools, cell, [first]);
    StatusMeans(tools, cell, [first, second]);
    assert cell.successCriteria[0] == "speed";
    assert Reported(cell, [first], "speed") && !Reported(cell, [first, second], "speed");
  }

  lemma {:induction false} OneBundle(before: seq<EvidenceBundle>, b: EvidenceBundle)
    ensures AllObservations(before + [b]) == AllObservations(before) + b.observations
    ensures |b.sources| == 1 ==> SourceById(before + [b]) == SourceById(before)[b.sources[0].id := b.sources[0]]
  {
    assert (before + [b])[..|before|] == before;
    if |b.sources| == 1 {
      var m := SourceById(before);
      assert b.sources[..0] == [] && Bind(m, b.sources[..0]) == m;
      assert Bind(m, b.sources) == m[b.sources[0].id := b.sources[0]];
    }
  }
}
