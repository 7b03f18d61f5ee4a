/**
 Coverage of generated WSTG objectives (src/aotp/wstg/coverage.py) and its update from execution
 results (src/aotp/wstg/execution_adapter.py).
 */
module WstgCoverage {
  import opened Basics
  import O = Objectives

  datatype Phase = Passive | Browser | Auth | Input | Validation | Report

  /** phase_order_index. */
  function PhaseIndex(p: Phase): nat {
    match p
    case Passive => 0
    case Browser => 1
    case Auth => 2
    case Input => 3
    case Validation => 4
    case Report => 5
  }

  datatype Objective = Objective(id: string, wstgId: string, phase: Phase)

  datatype Disposition = Tested | Skipped | Denied | Blocked | Deferred

  datatype CoverageRecord = CoverageRecord(
    id: string, wstgId: string, phase: Phase, disposition: Disposition, evidence: seq<string>, reasons: seq<string>)

  /** What constructing a record insists on. */
  predicate ValidRecord(r: CoverageRecord) {
    if r.disposition == Tested then r.evidence != [] else r.reasons != []
  }

  datatype CoverageError = EvidenceRequired | ReasonsRequired | UnknownObjective

  function IdsOf(objectives: seq<Objective>): (ids: seq<string>)
    ensures |ids| == |objectives| && forall i :: 0 <= i < |ids| ==> ids[i] == objectives[i].id
  {
    seq(|objectives|, i requires 0 <= i < |objectives| => objectives[i].id)
  }

  /** As the source tests it. */
  predicate UniqueIds(objectives: seq<Objective>) {
    |IdsOf(objectives)| == |Elements(IdsOf(objectives))|
  }

  type Records = map<string, CoverageRecord>

  predicate Settled(records: Records, id: string) {
    id in records && records[id].disposition != Deferred
  }

  function Missing(objectives: seq<Objective>, records: Records): seq<Objective> {
    if objectives == [] then []
    else
      var last := |objectives| - 1;
      Missing(objectives[..last], records) + if Settled(records, objectives[last].id) then [] else [objectives[last]]
  }

  // ----- Choosing -----

  /** The sort key (phase, WSTG id). */
  predicate KeyLe(a: Objective, b: Objective) {
    PhaseIndex(a.phase) < PhaseIndex(b.phase) || (a.phase == b.phase && O.StringLe(a.wstgId, b.wstgId))
  }

  lemma KeyLeTotal(a: Objective, b: Objective)
    ensures KeyLe(a, b) || KeyLe(b, a)
  {
    O.StringLeTotal(a.wstgId, b.wstgId);
  }

  lemma KeyLeTransitive(a: Objective, b: Objective, c: Objective)
    requires KeyLe(a, b) && KeyLe(b, c)
    ensures KeyLe(a, c)
  {
    if a.phase == b.phase == c.phase {
      O.StringLeTransitive(a.wstgId, b.wstgId, c.wstgId);
    }
  }

  /** The head of the stable sort: the first of the least. */
  function Earliest(list: seq<Objective>): (o: Objective)
    requires list != []
    ensures o in list
  {
    if |list| == 1 then list[0]
    else
      var before, last := Earliest(list[..|list| - 1]), list[|list| - 1];
      if KeyLe(before, last) then before else last
  }

  /** No key is smaller, and none before it in the list is as small. */
  lemma {:induction false} EarliestIsLeast(list: seq<Objective>) returns (at: nat)
    requires list != []
    ensures at < |list| && list[at] == Earliest(list)
    ensures forall o :: o in list ==> KeyLe(list[at], o)
    ensures forall i :: 0 <= i < at ==> !KeyLe(list[i], list[at])
  {
    hide KeyLe;
    var n := |list| - 1;
    var last := list[n];
    at := n;
    KeyLeTotal(last, last);
    if n > 0 {
      var init := list[..n];
      var before := EarliestIsLeast(init);
      KeyLeTotal(init[before], last);
      if KeyLe(init[before], last) {
        at := before;
      }
      forall o | o in list ensures KeyLe(list[at], o) {
        assert o == last || o in init;
        if o in init && at == n {
          KeyLeTransitive(last, init[before], o);
        }
      }
      forall i | 0 <= i < at ensures !KeyLe(list[i], list[at]) {
        assert list[i] == init[i] && init[i] in init;
        if at == n && KeyLe(init[i], last) {
          KeyLeTransitive(init[before], init[i], last);
        }
      }
    }
  }

  /** choose_next_objective: nothing to do, or the earliest of what is missing. */
  function ChooseNext(objectives: seq<Objective>, records: Records): (o: Option<Objective>)
    ensures o.None? <==> Missing(objectives, records) == []
    ensures o.Some? ==> o.value in Missing(objectives, records)
  {
    var missing := Missing(objectives, records);
    if missing == [] then None else Some(Earliest(missing))
  }

  // ----- Execution results -----

  datatype Status = Pass | Fail | Warning | Skip | NotApplicable

  datatype Candidate = Candidate(objective: string, evidence: set<string>)

  datatype ExecutionResult = ExecutionResult(
    objective: Objective, status: Status, summary: string, evidence: seq<string>, reasons: seq<string>,
    candidate: Option<Candidate>)

  /** What constructing an execution result insists on; a blank summary is an empty one here. */
  predicate ValidResult(r: ExecutionResult) {
    && r.summary != ""
    && (r.status in {Pass, Fail} ==> r.evidence != [])
    && (r.status in {Skip, NotApplicable} ==> r.reasons != [])
    && (r.candidate.Some? ==>
          && r.status == Fail && r.candidate.value.evidence <= Elements(r.evidence)
          && r.candidate.value.objective == r.objective.id)
  }

  function DispositionOf(s: Status): Disposition {
    if s in {Pass, Fail, Warning} then Tested else Skipped
  }

  function ReasonsOf(r: ExecutionResult): seq<string> {
    if r.reasons != [] then r.reasons
    else match r.status
         case NotApplicable => ["not applicable to target"]
         case Skip => ["execution skipped"]
         case Warning => ["warning result requires review"]
         case _ => []
  }

  /** coverage_record_from_execution_result; the record's own checks may raise. */
  function RecordFor(r: ExecutionResult): Result<CoverageRecord, CoverageError> {
    var disposition := DispositionOf(r.status);
    var evidence := if disposition == Tested then r.evidence else [];
    if disposition == Tested && evidence == [] then Err(EvidenceRequired)
    else if disposition != Tested && ReasonsOf(r) == [] then Err(ReasonsRequired)
    else Ok(CoverageRecord(r.objective.id, r.objective.wstgId, r.objective.phase, disposition, evidence, ReasonsOf(r)))
  }

  /** A valid result becomes a valid record exactly unless it is a warning without evidence. */
  lemma RecordExactlyUnlessBareWarning(r: ExecutionResult)
    requires ValidResult(r)
    ensures RecordFor(r).Err? <==> r.status == Warning && r.evidence == []
    ensures RecordFor(r).Ok? ==>
      var c := RecordFor(r).value; var ran := r.status !in {Skip, NotApplicable};
      && ValidRecord(c)
      && c.id == r.objective.id && c.wstgId == r.objective.wstgId && c.phase == r.objective.phase
      && c.disposition == (if ran then Tested else Skipped) && c.evidence == (if ran then r.evidence else [])
      && (r.reasons != [] ==> c.reasons == r.reasons)
      && (r.reasons == [] ==> c.reasons == if r.status == Warning then ["warning result requires review"] else [])
  {
  }

  /** There are such warnings: the result is valid, the record is refused. */
  lemma BareWarningIsValid(o: Objective)
    ensures var r := ExecutionResult(o, Warning, "check", [], [], None);
      ValidResult(r) && RecordFor(r) == Err(EvidenceRequired)
  {
  }

  // ----- The tracker -----

  function ExplicitWith(records: Records, d: Disposition): set<string> {
    set k | k in records && records[k].disposition == d
  }

  function DispositionIn(records: Records, o: Objective): Disposition {
    if o.id in records then records[o.id].disposition else Deferred
  }

  /** How many objectives of this phase stand at this disposition. */
  function Cell(objectives: seq<Objective>, records: Records, p: Phase, d: Disposition): nat {
    if objectives == [] then 0
    else
      var last := |objectives| - 1;
      Cell(objectives[..last], records, p, d)
      + if objectives[last].phase == p && DispositionIn(records, objectives[last]) == d then 1 else 0
  }

  class CoverageTracker {
    const objectives: seq<Objective>
    var records: Records

    constructor (objectives: seq<Objective>)
      requires UniqueIds(objectives)
      ensures Valid() && this.objectives == objectives && records == map[]
    {
      this.objectives := objectives;
      records := map[];
    }

    ghost predicate Valid()
      reads this
    {
      UniqueIds(objectives) && records.Keys <= Elements(IdsOf(objectives))
    }

    method Record(r: CoverageRecord) returns (ok: bool)
      requires Valid()
      modifies this
      ensures Valid()
      ensures ok <==> exists i :: 0 <= i < |objectives| && objectives[i].id == r.id
      ensures records == if ok then old(records)[r.id := r] else old(records)
    {
      var ids := Elements(IdsOf(objectives));
      if r.id !in ids {
        return false;
      }
      records := records[r.id := r];
      ok := true;
    }

    method Mark(o: Objective, d: Disposition, evidence: seq<string>, reasons: seq<string>)
      returns (r: Result<CoverageRecord, CoverageError>)
      requires Valid()
      modifies this
      ensures Valid()
      ensures r.Ok? <==>
        && ValidRecord(CoverageRecord(o.id, o.wstgId, o.phase, d, evidence, reasons))
        && exists i :: 0 <= i < |objectives| && objectives[i].id == o.id
      ensures r.Ok? ==> r.value == CoverageRecord(o.id, o.wstgId, o.phase, d, evidence, reasons)
      ensures records == if r.Ok? then old(records)[o.id := r.value] else old(records)
    {
      if d == Tested && evidence == [] {
        return Err(EvidenceRequired);
      }
      if d != Tested && reasons == [] {
        return Err(ReasonsRequired);
      }
      var record := CoverageRecord(o.id, o.wstgId, o.phase, d, evidence, reasons);
      var ok := Record(record);
      r := if ok then Ok(record) else Err(UnknownObjective);
    }

    /** apply_execution_result_to_coverage. */
    method Apply(result: ExecutionResult) returns (r: Result<CoverageRecord, CoverageError>)
      requires Valid()
      modifies this
      ensures Valid()
      ensures RecordFor(result).Err? ==> r == RecordFor(result)
      ensures r.Ok? <==>
        && RecordFor(result).Ok?
        && exists i :: 0 <= i < |objectives| && objectives[i].id == result.objective.id
      ensures r.Ok? ==> r == RecordFor(result)
      ensures records == if r.Ok? then old(records)[result.objective.id := r.value] else old(records)
    {
      r := RecordFor(result);
      if r.Ok? {
        var ok := Record(r.value);
        if !ok {
          r := Err(UnknownObjective);
        }
      }
    }

    /** The number of objectives, the status totals, the phase table, and the ids of what is missing. */
    method GapSummary()
      returns (total: nat, statuses: map<Disposition, nat>, phases: map<Phase, map<Disposition, nat>>,
               gaps: seq<string>)
      ensures total == |objectives| && gaps == IdsOf(Missing(objectives, records))
      ensures forall d :: d in statuses && statuses[d] == StatusCount(objectives, records, d)
      ensures forall p :: p in phases && IsRow(phases[p], objectives, records, p)
    {
      hide IsRow, Missing, ExplicitWith;
      var missing := Missing(objectives, records);
      statuses := CountStatuses();
      statuses := statuses[Deferred := statuses[Deferred] + |missing|];
      phases := CountPhases();
      total, gaps := |objectives|, IdsOf(missing);
    }

    method CountStatuses() returns (statuses: map<Disposition, nat>)
      ensures forall d :: d in statuses && statuses[d] == |ExplicitWith(records, d)|
    {
      hide Tally;
      ZeroesTotal();
      statuses := Zeroes();
      TallyNone(records);
      var todo := records.Keys;
      ghost var done: set<string> := {};
      while todo != {}
        invariant todo !! done && todo + done == records.Keys
        invariant forall d :: d in statuses && statuses[d] == Tally(records, done, d)
      {
        var k :| k in todo;
        var d := records[k].disposition;
        TallyAdds(records, done, k);
        statuses := statuses[d := statuses[d] + 1];
        todo := todo - {k};
        done := done + {k};
      }
      TallyAll(records);
    }

    method CountPhases() returns (phases: map<Phase, map<Disposition, nat>>)
      ensures forall p :: p in phases && IsRow(phases[p], objectives, records, p)
    {
      hide IsRow, DispositionIn;
      ZeroesTotal();
      var none := Zeroes();
      phases := map[Passive := none, Browser := none, Auth := none, Input := none, Validation := none, Report := none];
      assert objectives[..0] == [];
      forall p ensures p in phases && IsRow(phases[p], objectives[..0], records, p) {
        EmptyRow(none, records, p);
        match p
        case Passive =>
        case Browser =>
        case Auth =>
        case Input =>
        case Validation =>
        case Report =>
      }
      for i := 0 to |objectives|
        invariant forall p :: p in phases && IsRow(phases[p], objectives[..i], records, p)
      {
        var o := objectives[i];
        var d := DispositionIn(records, o);
        assert objectives[..i + 1] == objectives[..i] + [o];
        forall p ensures d in phases[p] && IsRow(if p == o.phase then phases[p][d := phases[p][d] + 1] else phases[p],
                                                 objectives[..i + 1], records, p) {
          RowGrows(phases[p], objectives[..i], o, records, p);
        }
        phases := phases[o.phase := phases[o.phase][d := phases[o.phase][d] + 1]];
      }
      assert objectives[..|objectives|] == objectives;
    }
  }

  function Zeroes(): map<Disposition, nat> {
    map[Tested := 0, Skipped := 0, Denied := 0, Blocked := 0, Deferred := 0]
  }

  lemma ZeroesTotal()
    ensures forall d :: d in Zeroes() && Zeroes()[d] == 0
  {
    forall d ensures d in Zeroes() && Zeroes()[d] == 0 {
      match d
      case Tested =>
      case Skipped =>
      case Denied =>
      case Blocked =>
      case Deferred =>
    }
  }

  function Tally(records: Records, keys: set<string>, d: Disposition): nat {
    |set k | k in keys && k in records && records[k].disposition == d|
  }

  lemma TallyNone(records: Records)
    ensures forall d :: Tally(records, {}, d) == 0
  {
    forall d ensures Tally(records, {}, d) == 0 {
      var none: set<string> := {};
      assert forall k :: k !in none;
    }
  }

  lemma TallyStep(records: Records, keys: set<string>, k: string, d: Disposition)
    requires k in records && k !in keys
    ensures Tally(records, keys + {k}, d) == Tally(records, keys, d) + if d == records[k].disposition then 1 else 0
  {
    var before := set j | j in keys && j in records && records[j].disposition == d;
    var after := set j | j in keys + {k} && j in records && records[j].disposition == d;
    assert after == if d == records[k].disposition then before + {k} else before;
  }

  lemma TallyAdds(records: Records, keys: set<string>, k: string)
    requires k in records && k !in keys
    ensures forall d ::
      Tally(records, keys + {k}, d) == Tally(records, keys, d) + if d == records[k].disposition then 1 else 0
  {
    hide Tally;
    forall d ensures
        Tally(records, keys + {k}, d) == Tally(records, keys, d) + if d == records[k].disposition then 1 else 0
    {
      TallyStep(records, keys, k, d);
    }
  }

  lemma TallyAll(records: Records)
    ensures forall d :: Tally(records, records.Keys, d) == |ExplicitWith(records, d)|
  {
    forall d ensures Tally(records, records.Keys, d) == |ExplicitWith(records, d)| {
      assert (set k | k in records.Keys && k in records && records[k].disposition == d) == ExplicitWith(records, d);
    }
  }

  predicate IsRow(row: map<Disposition, nat>, objectives: seq<Objective>, records: Records, p: Phase) {
    forall d :: d in row && row[d] == Cell(objectives, records, p, d)
  }

  lemma EmptyRow(row: map<Disposition, nat>, records: Records, p: Phase)
    requires forall d :: d in row && row[d] == 0
    ensures IsRow(row, [], records, p)
  {
  }

  lemma RowGrows(row: map<Disposition, nat>, objectives: seq<Objective>, o: Objective, records: Records, p: Phase)
    requires IsRow(row, objectives, records, p)
    ensures var d := DispositionIn(records, o);
      d in row && IsRow(if p == o.phase then row[d := row[d] + 1] else row, objectives + [o], records, p)
  {
    assert (objectives + [o])[..|objectives|] == objectives;
  }

  /** Identifiers that repeat raise in the source; otherwise the tracker is empty. */
  method NewTracker(objectives: seq<Objective>) returns (r: Option<CoverageTracker>)
    ensures r.Some? <==> UniqueIds(objectives)
    ensures r.Some? ==> r.value.Valid() && fresh(r.value)
    ensures r.Some? ==> r.value.objectives == objectives && r.value.records == map[]
  {
    if !UniqueIds(objectives) {
      return None;
    }
    var tracker := new CoverageTracker(objectives);
    r := Some(tracker);
  }

  // ----- The two totals of the gap summary -----

  function RowTotal(objectives: seq<Objective>, records: Records, p: Phase): nat {
    Cell(objectives, records, p, Tested) + Cell(objectives, records, p, Skipped) + Cell(objectives, records, p, Denied)
    + Cell(objectives, records, p, Blocked) + Cell(objectives, records, p, Deferred)
  }

  function TableTotal(objectives: seq<Objective>, records: Records): nat {
    RowTotal(objectives, records, Passive) + RowTotal(objectives, records, Browser)
    + RowTotal(objectives, records, Auth) + RowTotal(objectives, records, Input)
    + RowTotal(objectives, records, Validation) + RowTotal(objectives, records, Report)
  }

  /** The objective is of this phase and has a record of this kind, or none and the kind is deferred. */
  predicate Stands(o: Objective, records: Records, p: Phase, d: Disposition) {
    o.phase == p && if o.id in records then records[o.id].disposition == d else d == Deferred
  }

  /** A cell counts the objectives that stand there: one for a single one that does... */
  lemma CellOne(o: Objective, records: Records, p: Phase, d: Disposition)
    ensures Cell([o], records, p, d) == if Stands(o, records, p, d) then 1 else 0
  {
    assert [o][..0] == [];
  }

  /** ... and the sum over any split of the list. */
  lemma {:induction false} CellAdds(a: seq<Objective>, b: seq<Objective>, records: Records, p: Phase, d: Disposition)
    ensures Cell(a + b, records, p, d) == Cell(a, records, p, d) + Cell(b, records, p, d)
  {
    hide DispositionIn;
    if b == [] {
      assert a + b == a;
    } else {
      var n := |b| - 1;
      CellAdds(a, b[..n], records, p, d);
      assert (a + b)[..|a| + n] == a + b[..n] && (a + b)[|a| + n] == b[n];
    }
  }

  lemma RowStep(objectives: seq<Objective>, records: Records, p: Phase)
    requires objectives != []
    ensures RowTotal(objectives, records, p) ==
      RowTotal(objectives[..|objectives| - 1], records, p) + if objectives[|objectives| - 1].phase == p then 1 else 0
  {
  }

  /** Every objective stands in exactly one cell of the phase table. */
  lemma {:induction false} PhaseTableSums(objectives: seq<Objective>, records: Records)
    ensures TableTotal(objectives, records) == |objectives|
  {
    if objectives != [] {
      hide RowTotal;
      PhaseTableSums(objectives[..|objectives| - 1], records);
      RowStep(objectives, records, Passive);
      RowStep(objectives, records, Browser);
      RowStep(objectives, records, Auth);
      RowStep(objectives, records, Input);
      RowStep(objectives, records, Validation);
      RowStep(objectives, records, Report);
    }
  }

  function StatusCount(objectives: seq<Objective>, records: Records, d: Disposition): nat {
    |ExplicitWith(records, d)| + if d == Deferred then |Missing(objectives, records)| else 0
  }

  function StatusTotal(objectives: seq<Objective>, records: Records): nat {
    StatusCount(objectives, records, Tested) + StatusCount(objectives, records, Skipped)
    + StatusCount(objectives, records, Denied) + StatusCount(objectives, records, Blocked)
    + StatusCount(objectives, records, Deferred)
  }

  function SettledIds(records: Records): set<string> {
    set k | k in records && records[k].disposition != Deferred
  }

  lemma DisjointSize(a: set<string>, b: set<string>)
    requires a !! b
    ensures |a + b| == |a| + |b|
  {
  }

  lemma KindsDiffer(records: Records, a: Disposition, b: Disposition)
    requires a != b
    ensures ExplicitWith(records, a) !! ExplicitWith(records, b)
  {
  }

  lemma SettledKinds(records: Records)
    ensures SettledIds(records)
         == ExplicitWith(records, Tested) + ExplicitWith(records, Skipped) + ExplicitWith(records, Denied)
            + ExplicitWith(records, Blocked)
  {
    forall k | k in records ensures records[k].disposition in {Tested, Skipped, Denied, Blocked, Deferred} {
      match records[k].disposition
      case Tested =>
      case Skipped =>
      case Denied =>
      case Blocked =>
      case Deferred =>
    }
  }

  lemma RecordsPartition(records: Records)
    ensures |ExplicitWith(records, Tested)| + |ExplicitWith(records, Skipped)| + |ExplicitWith(records, Denied)|
            + |ExplicitWith(records, Blocked)| == |SettledIds(records)|
  {
    hide ExplicitWith, SettledIds;
    SettledKinds(records);
    KindsDiffer(records, Tested, Skipped);
    KindsDiffer(records, Tested, Denied);
    KindsDiffer(records, Skipped, Denied);
    KindsDiffer(records, Tested, Blocked);
    KindsDiffer(records, Skipped, Blocked);
    KindsDiffer(records, Denied, Blocked);
    var tested, skipped := ExplicitWith(records, Tested), ExplicitWith(records, Skipped);
    DisjointSize(tested, skipped);
    DisjointSize(tested + skipped, ExplicitWith(records, Denied));
    DisjointSize(tested + skipped + ExplicitWith(records, Denied), ExplicitWith(records, Blocked));
  }

  lemma {:induction false} MissingIds(objectives: seq<Objective>, records: Records)
    requires Distinct(IdsOf(objectives))
    ensures Distinct(IdsOf(Missing(objectives, records)))
    ensures Elements(IdsOf(Missing(objectives, records))) == Elements(IdsOf(objectives)) - SettledIds(records)
  {
    if objectives != [] {
      var last := |objectives| - 1;
      var init, o := objectives[..last], objectives[last];
      assert IdsOf(objectives) == IdsOf(init) + [o.id];
      MissingIds(init, records);
      ElementsSnoc(IdsOf(init), o.id);
      var before := Missing(init, records);
      if !Settled(records, o.id) {
        assert IdsOf(before + [o]) == IdsOf(before) + [o.id];
        ElementsSnoc(IdsOf(before), o.id);
      } else {
        assert Missing(objectives, records) == before;
      }
    }
  }

  /** The status totals count an explicit deferred record once as a record and once as a gap. */
  lemma StatusTotalsExceed(objectives: seq<Objective>, records: Records)
    requires UniqueIds(objectives) && records.Keys <= Elements(IdsOf(objectives))
    ensures StatusTotal(objectives, records) == |objectives| + |ExplicitWith(records, Deferred)|
  {
    hide Missing, Elements, IdsOf, Distinct;
    UniqueMeansDistinct(IdsOf(objectives));
    MissingIds(objectives, records);
    DistinctSize(IdsOf(Missing(objectives, records)));
    DistinctSize(IdsOf(objectives));
    RecordsPartition(records);
    assert SettledIds(records) <= Elements(IdsOf(objectives));
  }

  // ----- Choosing, executing and recording until nothing is missing -----

  /** The adapter's answer in round k: about the objective asked for, valid, with evidence for a warning. */
  ghost predicate Answers(adapter: (Objective, nat) -> ExecutionResult, o: Objective, k: nat) {
    var r := adapter(o, k);
    r.objective == o && ValidResult(r) && (r.status == Warning ==> r.evidence != [])
  }

  ghost predicate GoodAdapter(adapter: (Objective, nat) -> ExecutionResult) {
    forall o, k: nat :: Answers(adapter, o, k)
  }

  function Without(list: seq<Objective>, id: string): seq<Objective> {
    if list == [] then []
    else
      var last := |list| - 1;
      Without(list[..last], id) + if list[last].id == id then [] else [list[last]]
  }

  lemma {:induction false} SettlingRemoves(objectives: seq<Objective>, records: Records, r: CoverageRecord)
    requires r.disposition != Deferred
    ensures Missing(objectives, records[r.id := r]) == Without(Missing(objectives, records), r.id)
  {
    if objectives != [] {
      var last := |objectives| - 1;
      SettlingRemoves(objectives[..last], records, r);
      var before := Missing(objectives[..last], records);
      if !Settled(records, objectives[last].id) {
        assert (before + [objectives[last]])[..|before|] == before;
      } else {
        assert before + [] == before;
      }
    }
  }

  lemma {:induction false} WithoutOne(list: seq<Objective>, o: Objective)
    requires Distinct(IdsOf(list)) && o in list
    ensures |Without(list, o.id)| == |list| - 1
    ensures forall x :: x in Without(list, o.id) <==> x in list && x != o
  {
    var last := |list| - 1;
    var init := list[..last];
    assert forall x :: x in list <==> x in init || x == list[last];
    assert forall i :: 0 <= i < last ==> IdsOf(init)[i] == IdsOf(list)[i];
    if list[last] == o {
      forall x | x in init ensures x.id != o.id {
        var i :| 0 <= i < last && init[i] == x;
        assert IdsOf(list)[i] != IdsOf(list)[last];
      }
      WithoutNone(init, o.id);
    } else {
      var i :| 0 <= i < last && init[i] == o;
      assert IdsOf(list)[i] != IdsOf(list)[last];
      WithoutOne(init, o);
    }
  }

  lemma {:induction false} WithoutNone(list: seq<Objective>, id: string)
    requires forall x :: x in list ==> x.id != id
    ensures Without(list, id) == list
  {
    if list != [] {
      WithoutNone(list[..|list| - 1], id);
      assert list == list[..|list| - 1] + [list[|list| - 1]];
    }
  }

  lemma RoundShrinks(objectives: seq<Objective>, records: Records, adapter: (Objective, nat) -> ExecutionResult, k: nat)
    requires Distinct(IdsOf(objectives)) && GoodAdapter(adapter) && Missing(objectives, records) != []
    ensures var o := Earliest(Missing(objectives, records)); var r := RecordFor(adapter(o, k));
      && r.Ok? && r.value.id == o.id && r.value.disposition in {Tested, Skipped}
      && |Missing(objectives, records[o.id := r.value])| == |Missing(objectives, records)| - 1
      && (forall x :: x in Missing(objectives, records[o.id := r.value]) <==>
            x in Missing(objectives, records) && x != o)
  {
    hide Missing, Without, IdsOf, Distinct, Elements;
    var o := Earliest(Missing(objectives, records));
    assert Answers(adapter, o, k);
    RecordExactlyUnlessBareWarning(adapter(o, k));
    MissingIds(objectives, records);
    SettlingRemoves(objectives, records, RecordFor(adapter(o, k)).value);
    WithoutOne(Missing(objectives, records), o);
  }

  /** The records at the end, and the objectives in the order they were chosen. */
  ghost function Drive(objectives: seq<Objective>, records: Records, adapter: (Objective, nat) -> ExecutionResult,
                       k: nat)
    : (Records, seq<Objective>)
    requires Distinct(IdsOf(objectives)) && GoodAdapter(adapter)
    decreases |Missing(objectives, records)|
  {
    var next := ChooseNext(objectives, records);
    if next.None? then (records, [])
    else
      RoundShrinks(objectives, records, adapter, k);
      var o := next.value;
      var (final, visited) := Drive(objectives, records[o.id := RecordFor(adapter(o, k)).value], adapter, k + 1);
      (final, [o] + visited)
  }

  ghost predicate Ordered(visited: seq<Objective>) {
    forall i, j :: 0 <= i < j < |visited| ==> visited[i] != visited[j] && KeyLe(visited[i], visited[j])
  }

  ghost predicate Final(records: Records, o: Objective) {
    o.id in records && records[o.id].disposition in {Tested, Skipped}
  }

  /**
   The loop takes as many rounds as objectives were missing, visits exactly those, each once, in
   nondecreasing (phase, WSTG id) order, and leaves nothing missing: each ends tested or skipped.
   */
  lemma {:induction false} CoverageCompletes(
    objectives: seq<Objective>, records: Records, adapter: (Objective, nat) -> ExecutionResult, k: nat)
    requires Distinct(IdsOf(objectives)) && GoodAdapter(adapter)
    ensures var missing := Missing(objectives, records); var (final, visited) := Drive(objectives, records, adapter, k);
      && |visited| == |missing| && (forall o :: o in visited <==> o in missing) && Ordered(visited)
      && Missing(objectives, final) == []
      && (forall o :: o in missing ==> Final(final, o))
      && (forall id :: Settled(records, id) ==> id in final && final[id] == records[id])
    decreases |Missing(objectives, records)|
  {
    hide Missing, GoodAdapter, RecordFor, IdsOf, Distinct, KeyLe;
    var missing := Missing(objectives, records);
    if missing != [] {
      RoundShrinks(objectives, records, adapter, k);
      var _ := EarliestIsLeast(missing);
      var o := Earliest(missing);
      var after := records[o.id := RecordFor(adapter(o, k)).value];
      CoverageCompletes(objectives, after, adapter, k + 1);
      MissingUnsettled(objectives, records, o);
    }
  }

  lemma {:induction false} MissingUnsettled(objectives: seq<Objective>, records: Records, o: Objective)
    requires o in Missing(objectives, records)
    ensures !Settled(records, o.id)
  {
    var last := |objectives| - 1;
    if o in Missing(objectives[..last], records) {
      MissingUnsettled(objectives[..last], records, o);
    }
  }
}
