/**
 Bounded fuzzing (src/aotp/bounded_fuzzing.py): the static check of an objective against its
 scope, the dry-run plan, and the request budget the planned requests would pass through.
 */
module BoundedFuzzing {
  import opened Basics

  // ----- Untyped objective fields -----

  datatype Value =
    | Missing | Number(n: int) | Text(text: string) | ListOf(items: seq<Value>) | DictOf(entries: seq<Entry>) | Other

  datatype Entry = Entry(key: Value, value: Value)

  predicate Space(c: char) {
    c in " \t\n\r\U{0B}\U{0C}\U{1C}\U{1D}\U{1E}\U{1F}"
  }

  function StripLeft(s: string): string {
    if s != "" && Space(s[0]) then StripLeft(s[1..]) else s
  }

  function StripRight(s: string): string {
    if s != "" && Space(s[|s| - 1]) then StripRight(s[..|s| - 1]) else s
  }

  function Strip(s: string): string {
    StripRight(StripLeft(s))
  }

  /** Stripping takes off the blanks at both ends and nothing else. */
  lemma {:induction false} StripExactly(s: string) returns (i: nat, j: nat)
    ensures i <= j <= |s| && Strip(s) == s[i..j]
    ensures forall k :: 0 <= k < i || j <= k < |s| ==> Space(s[k])
    ensures i < j ==> !Space(s[i]) && !Space(s[j - 1])
    ensures Strip(s) == "" <==> forall k :: 0 <= k < |s| ==> Space(s[k])
  {
    i := LeftExactly(s);
    var m := RightExactly(s[i..]);
    j := i + m;
    assert s[i..][..m] == s[i..j];
    if m > 0 {
      assert s[i..][m - 1] == s[j - 1];
    }
    forall k | j <= k < |s| ensures Space(s[k]) {
      assert s[i..][k - i] == s[k];
    }
  }

  lemma {:induction false} LeftExactly(s: string) returns (i: nat)
    ensures i <= |s| && StripLeft(s) == s[i..] && forall k :: 0 <= k < i ==> Space(s[k])
    ensures i < |s| ==> !Space(s[i])
  {
    i := 0;
    if s != "" && Space(s[0]) {
      var m := LeftExactly(s[1..]);
      i := m + 1;
      assert s[1..][m..] == s[i..];
      assert forall k :: 1 <= k < i ==> s[k] == s[1..][k - 1];
    }
  }

  lemma {:induction false} RightExactly(s: string) returns (j: nat)
    ensures j <= |s| && StripRight(s) == s[..j] && forall k :: j <= k < |s| ==> Space(s[k])
    ensures j > 0 ==> !Space(s[j - 1])
  {
    j := |s|;
    assert s[..|s|] == s;
    if s != "" && Space(s[|s| - 1]) {
      j := RightExactly(s[..|s| - 1]);
      assert s[..|s| - 1][..j] == s[..j];
    }
  }

  predicate Label(v: Value) {
    v.Text? && Strip(v.text) != ""
  }

  predicate Positive(v: Value) {
    v.Number? && v.n > 0
  }

  predicate NonNegative(v: Value) {
    v.Number? && v.n >= 0
  }

  const SAFE_CLASSES := {"boundary_value", "empty_value", "encoded_literal", "format_literal", "type_variation"}

  const STOP_SIGNALS := {
    "authentication_lockout_risk", "response_size_limit", "retry_limit", "runtime_limit", "target_instability"}

  /** A corpus reference: absent, refused by validate_corpus_reference, or accepted with these fields. */
  datatype Corpus = NoCorpus | BadCorpus | Corpus(payloadCount: int, payloadClass: string)

  datatype Objective = Objective(
    payloadClasses: Value, payloadCount: Value, endpoints: Value,
    maxResponseBytes: Value, maxRuntimeSeconds: Value, maxRetries: Value, corpus: Corpus, signals: Value)

  /** The scope's fuzzing section; a missing number has its default (0, or -1 for retries). */
  datatype Scope = Scope(
    safeClasses: set<string>, payloadBudget: int, requestBudget: int, perEndpointLimit: int,
    maxResponseBytes: int, maxRuntimeSeconds: int, maxRetries: int)

  function Texts(items: seq<Value>): set<string> {
    set v | v in items && v.Text? :: v.text
  }

  /** collect_fuzzing_stop_signals, as a set. */
  function Signals(v: Value): set<string> {
    if v.ListOf? then set x | x in v.items && Label(x) :: Strip(x.text) else {}
  }

  /** Blanks around a signal do not hide it. */
  lemma SignalsFound(v: Value, left: string, core: string, right: string)
    requires v.ListOf? && core != "" && !Space(core[0]) && !Space(core[|core| - 1])
    requires forall k :: 0 <= k < |left| ==> Space(left[k])
    requires forall k :: 0 <= k < |right| ==> Space(right[k])
    ensures Text(left + core + right) in v.items ==> core in Signals(v)
  {
    hide Space, Strip;
    Unpadded(left, core, right);
    var item := Text(left + core + right);
    if item in v.items {
      assert Label(item) && Strip(item.text) == core;
    }
  }

  /** Nothing blank or padded is a signal. */
  lemma SignalsTrimmed(v: Value, x: string)
    requires x in Signals(v)
    ensures x != "" && !Space(x[0]) && !Space(x[|x| - 1])
  {
    hide Space, Strip;
    var item :| item in v.items && Label(item) && Strip(item.text) == x;
    var i, j := StripExactly(item.text);
  }

  lemma Unpadded(left: string, core: string, right: string)
    requires core != "" && !Space(core[0]) && !Space(core[|core| - 1])
    requires forall k :: 0 <= k < |left| ==> Space(left[k])
    requires forall k :: 0 <= k < |right| ==> Space(right[k])
    ensures Strip(left + core + right) == core
  {
    hide Space, Strip;
    var s := left + core + right;
    var i, j := StripExactly(s);
    assert s[|left|] == core[0] && s[|left| + |core| - 1] == core[|core| - 1];
    assert forall k :: 0 <= k < |left| ==> s[k] == left[k];
    assert forall k :: |left| + |core| <= k < |s| ==> s[k] == right[k - |left| - |core|];
    assert i == |left| && j == |left| + |core|;
  }

  function Planned(entries: seq<Entry>): nat {
    if entries == [] then 0 else (if Positive(entries[0].value) then entries[0].value.n else 0) + Planned(entries[1..])
  }

  predicate EndpointEntry(e: Entry) {
    Label(e.key) && Positive(e.value)
  }

  predicate ClassList(v: Value) {
    v.ListOf? && v.items != [] && forall i :: 0 <= i < |v.items| ==> Label(v.items[i])
  }

  predicate Endpoints(v: Value) {
    v.DictOf? && v.entries != [] && forall i :: 0 <= i < |v.entries| ==> EndpointEntry(v.entries[i])
  }

  // ----- The static check -----

  datatype BoundaryError =
    | NoClasses | BlankClass | UnsafeClass | UnapprovedClass | BadCount | CountOverBudget | CountUnderClasses
    | NoEndpoints | BadEndpoints | EndpointOverLimit | RequestsOverBudget
    | BadLimit(field: string) | LimitOverScope(field: string) | BadRetries | RetriesOverScope
    | CorpusInvalid | CorpusOverBudget | CorpusOverCount | CorpusClassMissing | UnknownSignal

  /** What an objective without boundary errors satisfies. */
  predicate Bounded(o: Objective, scope: Scope) {
    && ClassList(o.payloadClasses)
    && Texts(o.payloadClasses.items) <= SAFE_CLASSES && Texts(o.payloadClasses.items) <= scope.safeClasses
    && Positive(o.payloadCount) && |Texts(o.payloadClasses.items)| <= o.payloadCount.n <= scope.payloadBudget
    && Endpoints(o.endpoints)
    && (forall i :: 0 <= i < |o.endpoints.entries| ==> o.endpoints.entries[i].value.n <= scope.perEndpointLimit)
    && Planned(o.endpoints.entries) <= scope.requestBudget
    && Positive(o.maxResponseBytes) && o.maxResponseBytes.n <= scope.maxResponseBytes
    && Positive(o.maxRuntimeSeconds) && o.maxRuntimeSeconds.n <= scope.maxRuntimeSeconds
    && NonNegative(o.maxRetries) && o.maxRetries.n <= scope.maxRetries
    && !o.corpus.BadCorpus?
    && (o.corpus.Corpus? ==>
          && o.corpus.payloadCount <= scope.payloadBudget && o.corpus.payloadCount <= o.payloadCount.n
          && o.corpus.payloadClass in Texts(o.payloadClasses.items))
    && Signals(o.signals) <= STOP_SIGNALS
  }

  method ClassErrors(o: Objective, scope: Scope) returns (errors: seq<BoundaryError>, classes: set<string>)
    ensures errors == [] <==>
      && ClassList(o.payloadClasses)
      && Texts(o.payloadClasses.items) <= SAFE_CLASSES && Texts(o.payloadClasses.items) <= scope.safeClasses
    ensures ClassList(o.payloadClasses) ==> classes == Texts(o.payloadClasses.items)
  {
    errors, classes := [], {};
    if !o.payloadClasses.ListOf? || o.payloadClasses.items == [] {
      errors := errors + [NoClasses];
    } else if exists i :: 0 <= i < |o.payloadClasses.items| && !Label(o.payloadClasses.items[i]) {
      errors := errors + [BlankClass];
    } else {
      classes := Texts(o.payloadClasses.items);
    }
    if !(classes <= SAFE_CLASSES) {
      errors := errors + [UnsafeClass];
    }
    if !(classes <= scope.safeClasses) {
      errors := errors + [UnapprovedClass];
    }
  }

  method CountErrors(o: Objective, scope: Scope, classes: set<string>) returns (errors: seq<BoundaryError>)
    ensures errors == [] <==> Positive(o.payloadCount) && |classes| <= o.payloadCount.n <= scope.payloadBudget
  {
    if !Positive(o.payloadCount) {
      return [BadCount];
    } else if o.payloadCount.n > scope.payloadBudget {
      return [CountOverBudget];
    } else if |classes| > o.payloadCount.n {
      return [CountUnderClasses];
    }
    errors := [];
  }

  method EndpointErrors(o: Objective, scope: Scope) returns (errors: seq<BoundaryError>)
    ensures errors == [] <==>
      && Endpoints(o.endpoints)
      && (forall i :: 0 <= i < |o.endpoints.entries| ==> o.endpoints.entries[i].value.n <= scope.perEndpointLimit)
      && Planned(o.endpoints.entries) <= scope.requestBudget
  {
    errors := [];
    var entries := [];
    if !o.endpoints.DictOf? || o.endpoints.entries == [] {
      errors := errors + [NoEndpoints];
    } else {
      entries := o.endpoints.entries;
    }
    if exists i :: 0 <= i < |entries| && !EndpointEntry(entries[i]) {
      errors := errors + [BadEndpoints];
    }
    if exists i :: 0 <= i < |entries| && Positive(entries[i].value) && entries[i].value.n > scope.perEndpointLimit {
      errors := errors + [EndpointOverLimit];
    }
    if Planned(entries) > scope.requestBudget {
      errors := errors + [RequestsOverBudget];
    }
  }

  method LimitErrors(field: string, v: Value, limit: int) returns (errors: seq<BoundaryError>)
    ensures errors == [] <==> Positive(v) && v.n <= limit
  {
    errors := if !Positive(v) then [BadLimit(field)] else if v.n > limit then [LimitOverScope(field)] else [];
  }

  method CorpusErrors(o: Objective, scope: Scope, classes: set<string>) returns (errors: seq<BoundaryError>)
    requires ClassList(o.payloadClasses) ==> classes == Texts(o.payloadClasses.items)
    ensures errors == [] && ClassList(o.payloadClasses) && Positive(o.payloadCount) <==>
      && ClassList(o.payloadClasses) && Positive(o.payloadCount) && !o.corpus.BadCorpus?
      && (o.corpus.Corpus? ==>
            && o.corpus.payloadCount <= scope.payloadBudget && o.corpus.payloadCount <= o.payloadCount.n
            && o.corpus.payloadClass in Texts(o.payloadClasses.items))
  {
    errors := [];
    if o.corpus.BadCorpus? {
      errors := errors + [CorpusInvalid];
    } else if o.corpus.Corpus? {
      if o.corpus.payloadCount > scope.payloadBudget {
        errors := errors + [CorpusOverBudget];
      }
      if Positive(o.payloadCount) && o.corpus.payloadCount > o.payloadCount.n {
        errors := errors + [CorpusOverCount];
      }
      if o.corpus.payloadClass !in classes {
        errors := errors + [CorpusClassMissing];
      }
    }
  }

  /** No error is reported exactly for bounded objectives. */
  method FuzzingBoundaryErrors(o: Objective, scope: Scope) returns (errors: seq<BoundaryError>)
    ensures errors == [] <==> Bounded(o, scope)
  {
    hide ClassList, Endpoints, Texts, Signals, Planned;
    var classes;
    errors, classes := ClassErrors(o, scope);
    var more := CountErrors(o, scope, classes);
    errors := errors + more;
    more := EndpointErrors(o, scope);
    errors := errors + more;
    more := LimitErrors("max_response_bytes", o.maxResponseBytes, scope.maxResponseBytes);
    errors := errors + more;
    more := LimitErrors("max_runtime_seconds", o.maxRuntimeSeconds, scope.maxRuntimeSeconds);
    errors := errors + more;
    if !NonNegative(o.maxRetries) {
      errors := errors + [BadRetries];
    } else if o.maxRetries.n > scope.maxRetries {
      errors := errors + [RetriesOverScope];
    }
    more := CorpusErrors(o, scope, classes);
    errors := errors + more;
    if !(Signals(o.signals) <= STOP_SIGNALS) {
      errors := errors + [UnknownSignal];
    }
  }

  // ----- The dry-run plan -----

  datatype PlanError =
    | PlanNoEndpoints | PlanBadEndpoints | PlanNoClasses | PlanUnsafeClass | PlanBadCount | PlanCountUnderClasses
    | PlanBadLimit | PlanBadRetries | PlanBadCorpus | PlanUnknownSignal | PlanStopped

  /** What the plan takes over from the objective, and the count it plans. */
  datatype Plan = Plan(
    payloadClasses: seq<Value>, payloadCount: int, endpoints: seq<Entry>, plannedRequests: nat,
    maxResponseBytes: int, maxRetries: int, maxRuntimeSeconds: int, corpus: Corpus)

  /** The items a Python set of payload classes holds, whatever their type. */
  function Items(items: seq<Value>): set<Value> {
    set v | v in items
  }

  predicate SafeItems(items: seq<Value>) {
    forall i :: 0 <= i < |items| ==> items[i].Text? && items[i].text in SAFE_CLASSES
  }

  predicate Buildable(o: Objective) {
    && Endpoints(o.endpoints)
    && o.payloadClasses.ListOf? && o.payloadClasses.items != [] && SafeItems(o.payloadClasses.items)
    && Positive(o.payloadCount) && |Items(o.payloadClasses.items)| <= o.payloadCount.n
    && Positive(o.maxResponseBytes) && Positive(o.maxRuntimeSeconds) && NonNegative(o.maxRetries)
    && !o.corpus.BadCorpus? && Signals(o.signals) == {}
  }

  /** Raises at the first fault it meets, so it succeeds exactly on buildable objectives. */
  method BuildFuzzingDryRunPlan(o: Objective) returns (r: Result<Plan, PlanError>)
    ensures r.Ok? <==> Buildable(o)
    ensures r.Ok? ==>
      && r.value.payloadClasses == o.payloadClasses.items && r.value.payloadCount == o.payloadCount.n
      && r.value.endpoints == o.endpoints.entries && r.value.plannedRequests == Planned(o.endpoints.entries)
      && r.value.maxResponseBytes == o.maxResponseBytes.n && r.value.maxRetries == o.maxRetries.n
      && r.value.maxRuntimeSeconds == o.maxRuntimeSeconds.n && r.value.corpus == o.corpus
    ensures r.Err? && r.error == PlanStopped ==> Signals(o.signals) != {} && Signals(o.signals) <= STOP_SIGNALS
  {
    hide Signals, Planned;
    if !o.endpoints.DictOf? || o.endpoints.entries == [] {
      return Err(PlanNoEndpoints);
    }
    if exists i :: 0 <= i < |o.endpoints.entries| && !EndpointEntry(o.endpoints.entries[i]) {
      return Err(PlanBadEndpoints);
    }
    if !o.payloadClasses.ListOf? || o.payloadClasses.items == [] {
      return Err(PlanNoClasses);
    }
    if !SafeItems(o.payloadClasses.items) {
      return Err(PlanUnsafeClass);
    }
    if !Positive(o.payloadCount) {
      return Err(PlanBadCount);
    }
    if |Items(o.payloadClasses.items)| > o.payloadCount.n {
      return Err(PlanCountUnderClasses);
    }
    if !Positive(o.maxResponseBytes) || !Positive(o.maxRuntimeSeconds) {
      return Err(PlanBadLimit);
    }
    if !NonNegative(o.maxRetries) {
      return Err(PlanBadRetries);
    }
    if o.corpus.BadCorpus? {
      return Err(PlanBadCorpus);
    }
    if !(Signals(o.signals) <= STOP_SIGNALS) {
      return Err(PlanUnknownSignal);
    }
    if Signals(o.signals) != {} {
      return Err(PlanStopped);
    }
    var entries := o.endpoints.entries;
    r := Ok(Plan(o.payloadClasses.items, o.payloadCount.n, entries, Planned(entries),
                 o.maxResponseBytes.n, o.maxRetries.n, o.maxRuntimeSeconds.n, o.corpus));
  }

  lemma {:induction false} ItemsAreTexts(items: seq<Value>)
    requires forall i :: 0 <= i < |items| ==> items[i].Text?
    ensures |Items(items)| == |Texts(items)|
  {
    hide Items, Texts;
    if items == [] {
      NoItems();
    } else {
      ItemsAreTexts(items[1..]);
      FirstItem(items);
      Adding(Items(items[1..]), items[0]);
      Adding(Texts(items[1..]), items[0].text);
    }
  }

  lemma Adding<T>(s: set<T>, x: T)
    ensures |{x} + s| == |s| + if x in s then 0 else 1
  {
    if x in s {
      assert {x} + s == s;
    }
  }

  lemma NoItems()
    ensures Items([]) == {} && Texts([]) == {}
  {
  }

  lemma FirstItem(items: seq<Value>)
    requires items != [] && forall i :: 0 <= i < |items| ==> items[i].Text?
    ensures Items(items) == {items[0]} + Items(items[1..])
    ensures Texts(items) == {items[0].text} + Texts(items[1..])
    ensures items[0] in Items(items[1..]) <==> items[0].text in Texts(items[1..])
  {
    var rest := items[1..];
    assert forall v :: v in items <==> v == items[0] || v in rest;
    if items[0].text in Texts(rest) {
      var v :| v in rest && v.Text? && v.text == items[0].text;
      assert v == items[0];
    }
  }

  /** A bounded objective is buildable exactly when it carries no stop signal. */
  lemma StaticCheckMeetsPlan(o: Objective, scope: Scope)
    requires Bounded(o, scope)
    ensures Buildable(o) <==> Signals(o.signals) == {}
    ensures Planned(o.endpoints.entries) <= scope.requestBudget
  {
    hide Planned, Signals;
    var items := o.payloadClasses.items;
    forall i | 0 <= i < |items| ensures items[i].Text? && items[i].text in SAFE_CLASSES {
      assert Label(items[i]);
      assert items[i].text in Texts(items);
    }
    ItemsAreTexts(items);
  }

  // ----- The runtime budget -----

  datatype Usage = Usage(total: int, endpoints: map<string, int>)

  const UNUSED := Usage(0, map[])

  predicate Accepts(totalLimit: int, perEndpointLimit: int) {
    0 < perEndpointLimit <= totalLimit
  }

  datatype ReserveError = AliasMissing | CountNotPositive | EndpointLimit | TotalLimit

  function Reserved(u: Usage, alias: string, count: int): Usage {
    Usage(u.total + count, u.endpoints[alias := Get(u.endpoints, alias) + count])
  }

  function Refusal(totalLimit: int, perEndpointLimit: int, u: Usage, alias: string, count: int): Option<ReserveError> {
    if Strip(alias) == "" then Some(AliasMissing)
    else if count <= 0 then Some(CountNotPositive)
    else if Get(u.endpoints, alias) + count > perEndpointLimit then Some(EndpointLimit)
    else if u.total + count > totalLimit then Some(TotalLimit)
    else None
  }

  class FuzzingRequestBudget {
    const totalLimit: int
    const perEndpointLimit: int
    var totalRequests: int
    var endpointRequests: map<string, int>

    constructor (totalLimit: int, perEndpointLimit: int)
      requires Accepts(totalLimit, perEndpointLimit)
      ensures this.totalLimit == totalLimit && this.perEndpointLimit == perEndpointLimit && View() == UNUSED
    {
      this.totalLimit, this.perEndpointLimit := totalLimit, perEndpointLimit;
      totalRequests, endpointRequests := 0, map[];
    }

    function View(): Usage
      reads this
    {
      Usage(totalRequests, endpointRequests)
    }

    method Reserve(alias: string, count: int) returns (e: Option<ReserveError>)
      modifies this
      ensures e == Refusal(totalLimit, perEndpointLimit, old(View()), alias, count)
      ensures View() == if e.None? then Reserved(old(View()), alias, count) else old(View())
      ensures e == Some(AliasMissing) <==> forall k :: 0 <= k < |alias| ==> Space(alias[k])
      ensures e == Some(CountNotPositive) ==> count <= 0
      ensures e == Some(EndpointLimit) ==> Get(old(endpointRequests), alias) + count > perEndpointLimit
      ensures e == Some(TotalLimit) ==> old(totalRequests) + count > totalLimit
      ensures e.None? ==> totalRequests == old(totalRequests) + count > old(totalRequests)
      ensures e.None? ==> endpointRequests == old(endpointRequests)[alias := Get(old(endpointRequests), alias) + count]
    {
      ghost var from, upTo := StripExactly(alias);
      if Strip(alias) == "" {
        return Some(AliasMissing);
      }
      if count <= 0 {
        return Some(CountNotPositive);
      }
      var current := Get(endpointRequests, alias);
      if current + count > perEndpointLimit {
        return Some(EndpointLimit);
      }
      if totalRequests + count > totalLimit {
        return Some(TotalLimit);
      }
      endpointRequests := endpointRequests[alias := current + count];
      totalRequests := totalRequests + count;
      e := None;
    }
  }

  /** Limits that are not accepted raise in the source. */
  method NewBudget(totalLimit: int, perEndpointLimit: int) returns (r: Option<FuzzingRequestBudget>)
    ensures r.Some? <==> Accepts(totalLimit, perEndpointLimit)
    ensures r.Some? ==> r.value.View() == UNUSED && fresh(r.value)
    ensures r.Some? ==> r.value.totalLimit == totalLimit && r.value.perEndpointLimit == perEndpointLimit
  {
    if totalLimit <= 0 || perEndpointLimit <= 0 || perEndpointLimit > totalLimit {
      return None;
    }
    var budget := new FuzzingRequestBudget(totalLimit, perEndpointLimit);
    r := Some(budget);
  }

  datatype Request = Request(alias: string, count: int)

  /** The usage after these reservations; a refused one changes nothing. */
  function After(totalLimit: int, perEndpointLimit: int, requests: seq<Request>): Usage {
    if requests == [] then UNUSED
    else
      var u := After(totalLimit, perEndpointLimit, requests[..|requests| - 1]);
      var r := requests[|requests| - 1];
      if Refusal(totalLimit, perEndpointLimit, u, r.alias, r.count).None? then Reserved(u, r.alias, r.count) else u
  }

  ghost predicate Kept(totalLimit: int, perEndpointLimit: int, u: Usage) {
    && u.total == MapSum(u.endpoints) && 0 <= u.total <= totalLimit
    && forall a :: 0 <= Get(u.endpoints, a) <= perEndpointLimit
  }

  lemma ReserveKeeps(totalLimit: int, perEndpointLimit: int, u: Usage, alias: string, count: int)
    requires Kept(totalLimit, perEndpointLimit, u) && Refusal(totalLimit, perEndpointLimit, u, alias, count).None?
    ensures Kept(totalLimit, perEndpointLimit, Reserved(u, alias, count))
  {
    hide MapSum, Strip;
    MapSumUpdate(u.endpoints, alias, Get(u.endpoints, alias) + count);
    var v := Reserved(u, alias, count);
    forall a ensures 0 <= Get(v.endpoints, a) <= perEndpointLimit {
      assert 0 <= Get(u.endpoints, a) <= perEndpointLimit;
    }
  }

  /** Whatever is asked for, the total is the sum over endpoints and no limit is passed. */
  lemma {:induction false} ReservationsConserved(totalLimit: int, perEndpointLimit: int, requests: seq<Request>)
    requires Accepts(totalLimit, perEndpointLimit)
    ensures Kept(totalLimit, perEndpointLimit, After(totalLimit, perEndpointLimit, requests))
  {
    hide Kept, Refusal, Reserved;
    if requests == [] {
      NothingReserved(totalLimit, perEndpointLimit);
    } else {
      ReservationsConserved(totalLimit, perEndpointLimit, requests[..|requests| - 1]);
      var u := After(totalLimit, perEndpointLimit, requests[..|requests| - 1]);
      var r := requests[|requests| - 1];
      if Refusal(totalLimit, perEndpointLimit, u, r.alias, r.count).None? {
        ReserveKeeps(totalLimit, perEndpointLimit, u, r.alias, r.count);
      }
    }
  }

  /** A labelled, positive request is refused exactly when granting it would break a limit. */
  lemma RefusedExactly(totalLimit: int, perEndpointLimit: int, u: Usage, alias: string, count: int)
    requires Kept(totalLimit, perEndpointLimit, u) && Strip(alias) != "" && count > 0
    ensures Refusal(totalLimit, perEndpointLimit, u, alias, count).Some? <==>
      !Kept(totalLimit, perEndpointLimit, Reserved(u, alias, count))
  {
    hide MapSum, Strip;
    if Refusal(totalLimit, perEndpointLimit, u, alias, count).None? {
      ReserveKeeps(totalLimit, perEndpointLimit, u, alias, count);
    } else {
      assert Get(Reserved(u, alias, count).endpoints, alias) == Get(u.endpoints, alias) + count;
    }
  }

  lemma NothingReserved(totalLimit: int, perEndpointLimit: int)
    requires Accepts(totalLimit, perEndpointLimit)
    ensures Kept(totalLimit, perEndpointLimit, UNUSED)
  {
  }

  // ----- Planned requests, one at a time, in any order -----

  function Singles(order: seq<string>): (r: seq<Request>)
    ensures |r| == |order|
  {
    seq(|order|, i requires 0 <= i < |order| => Request(order[i], 1))
  }

  /** The order asks each endpoint at most as often as planned, and no other endpoint. */
  ghost predicate WithinPlan(order: multiset<string>, entries: seq<Entry>) {
    && (forall a :: a in order ==> exists i :: 0 <= i < |entries| && entries[i].key == Text(a))
    && (forall i :: 0 <= i < |entries| && entries[i].key.Text? && Positive(entries[i].value) ==>
          order[entries[i].key.text] <= entries[i].value.n)
  }

  /** What a plan allows in total bounds every order within it. */
  lemma {:induction false} PlanCovers(order: multiset<string>, entries: seq<Entry>)
    requires WithinPlan(order, entries) && forall i :: 0 <= i < |entries| ==> EndpointEntry(entries[i])
    ensures |order| <= Planned(entries)
    decreases entries
  {
    if entries == [] {
      assert order == multiset{};
    } else {
      var a := entries[0].key.text;
      var rest := order[a := 0];
      forall b | b in rest ensures exists i :: 0 <= i < |entries[1..]| && entries[1..][i].key == Text(b) {
        assert b in order;
        var i :| 0 <= i < |entries| && entries[i].key == Text(b);
        assert entries[1..][i - 1] == entries[i];
      }
      PlanCovers(rest, entries[1..]);
    }
  }

  /** One more endpoint, asked as often as planned. */
  lemma {:induction false} OneMoreEndpoint(rest: multiset<string>, entries: seq<Entry>)
    requires entries != [] && EndpointEntry(entries[0]) && WithinPlan(rest, entries[1..])
    requires forall j :: 0 < j < |entries| ==> entries[0].key != entries[j].key
    ensures WithinPlan(rest[entries[0].key.text := entries[0].value.n], entries)
    ensures entries[0].key.text !in rest
  {
    var order := rest[entries[0].key.text := entries[0].value.n];
    forall b | b in rest
      ensures b != entries[0].key.text && exists i :: 0 <= i < |entries| && entries[i].key == Text(b)
    {
      var i :| 0 <= i < |entries[1..]| && entries[1..][i].key == Text(b);
      assert entries[i + 1].key == Text(b);
    }
    forall i | 0 <= i < |entries| && entries[i].key.Text? && Positive(entries[i].value)
      ensures order[entries[i].key.text] <= entries[i].value.n
    {
      assert i > 0 ==> entries[i] == entries[1..][i - 1];
    }
  }

  /** The bound is reached: an order that asks each endpoint, listed once, as often as planned. */
  lemma {:induction false} PlanReached(entries: seq<Entry>) returns (order: multiset<string>)
    requires forall i :: 0 <= i < |entries| ==> EndpointEntry(entries[i])
    requires forall i, j :: 0 <= i < j < |entries| ==> entries[i].key != entries[j].key
    ensures WithinPlan(order, entries) && |order| == Planned(entries)
    decreases entries
  {
    order := multiset{};
    if entries != [] {
      hide WithinPlan;
      var rest := PlanReached(entries[1..]);
      OneMoreEndpoint(rest, entries);
      order := rest[entries[0].key.text := entries[0].value.n];
    }
  }

  lemma CountGrows(order: seq<string>, n: nat, a: string)
    requires n <= |order|
    ensures multiset(order[..n])[a] <= multiset(order)[a]
  {
    assert order == order[..n] + order[n..];
  }

  /** One more request within the plan is not refused. */
  lemma NotRefused(o: Objective, scope: Scope, order: seq<string>, n: nat, u: Usage)
    requires Bounded(o, scope) && WithinPlan(multiset(order), o.endpoints.entries) && n < |order|
    requires u.total == n && forall a :: Get(u.endpoints, a) == multiset(order[..n])[a]
    ensures Refusal(scope.requestBudget, scope.perEndpointLimit, u, order[n], 1).None?
  {
    hide Planned, Strip, Texts, Signals, ClassList;
    var entries := o.endpoints.entries;
    PlanCovers(multiset(order), entries);
    assert |multiset(order)| == |order|;
    assert order[n] in multiset(order);
    var i :| 0 <= i < |entries| && entries[i].key == Text(order[n]);
    assert EndpointEntry(entries[i]);
    CountGrows(order, n + 1, order[n]);
    assert order[..n + 1] == order[..n] + [order[n]];
  }

  lemma {:induction false} PrefixReserved(o: Objective, scope: Scope, order: seq<string>, n: nat)
    requires Bounded(o, scope) && WithinPlan(multiset(order), o.endpoints.entries) && n <= |order|
    ensures var u := After(scope.requestBudget, scope.perEndpointLimit, Singles(order)[..n]);
      u.total == n && forall a :: Get(u.endpoints, a) == multiset(order[..n])[a]
  {
    hide Bounded, WithinPlan, Refusal;
    if n > 0 {
      PrefixReserved(o, scope, order, n - 1);
      var requests := Singles(order);
      assert requests[..n][..n - 1] == requests[..n - 1];
      var u := After(scope.requestBudget, scope.perEndpointLimit, requests[..n - 1]);
      NotRefused(o, scope, order, n - 1, u);
      assert order[..n] == order[..n - 1] + [order[n - 1]];
    }
  }

  /**
   An objective that passes the static check: every order of single requests within its plan goes
   through the budget of its scope without a refusal, and ends with every endpoint charged its
   requests and the total their sum.
   */
  lemma StaticCheckMeetsBudget(o: Objective, scope: Scope, order: seq<string>)
    requires Bounded(o, scope) && scope.perEndpointLimit <= scope.requestBudget
    requires WithinPlan(multiset(order), o.endpoints.entries)
    ensures Accepts(scope.requestBudget, scope.perEndpointLimit)
    ensures forall n :: 0 <= n < |order| ==>
      Refusal(scope.requestBudget, scope.perEndpointLimit,
              After(scope.requestBudget, scope.perEndpointLimit, Singles(order)[..n]), order[n], 1).None?
    ensures var u := After(scope.requestBudget, scope.perEndpointLimit, Singles(order));
      && u.total == |order| == MapSum(u.endpoints) && u.total <= Planned(o.endpoints.entries)
      && forall a :: Get(u.endpoints, a) == multiset(order)[a]
  {
    hide WithinPlan, Refusal, Planned, Texts, Signals, ClassList, After, Singles;
    LimitsPositive(o, scope);
    forall n | 0 <= n < |order|
      ensures Refusal(scope.requestBudget, scope.perEndpointLimit,
                      After(scope.requestBudget, scope.perEndpointLimit, Singles(order)[..n]), order[n], 1).None?
    {
      PrefixReserved(o, scope, order, n);
      NotRefused(o, scope, order, n, After(scope.requestBudget, scope.perEndpointLimit, Singles(order)[..n]));
    }
    PrefixReserved(o, scope, order, |order|);
    WholeOrder(order);
    ReservationsConserved(scope.requestBudget, scope.perEndpointLimit, Singles(order));
    PlanCovers(multiset(order), o.endpoints.entries);
    assert |multiset(order)| == |order|;
  }

  lemma WholeOrder(order: seq<string>)
    ensures Singles(order)[..|order|] == Singles(order) && order[..|order|] == order
  {
  }

  lemma LimitsPositive(o: Objective, scope: Scope)
    requires Bounded(o, scope)
    ensures scope.perEndpointLimit > 0 && scope.requestBudget > 0
  {
    var e := o.endpoints.entries[0];
    assert EndpointEntry(e);
  }

  /** The static check does not compare the two limits, and that is all the budget's constructor adds. */
  lemma BudgetAcceptsExactly(o: Objective, scope: Scope)
    requires Bounded(o, scope)
    ensures Accepts(scope.requestBudget, scope.perEndpointLimit) <==> scope.perEndpointLimit <= scope.requestBudget
  {
    hide Texts, Signals, ClassList, Planned;
    LimitsPositive(o, scope);
  }

  lemma StripKeeps(s: string)
    requires s != "" && !Space(s[0]) && !Space(s[|s| - 1])
    ensures Strip(s) == s
  {
  }

  /** A bounded objective under a scope whose budget cannot even be constructed. */
  lemma StaticCheckAloneIsNotEnough()
    ensures exists o, scope :: Bounded(o, scope) && !Accepts(scope.requestBudget, scope.perEndpointLimit)
  {
    hide Strip;
    StripKeeps("empty_value");
    StripKeeps("login");
    var classes := [Text("empty_value")];
    var entries := [Entry(Text("login"), Number(1))];
    var o := Objective(ListOf(classes), Number(1), DictOf(entries), Number(1), Number(1), Number(0), NoCorpus, Missing);
    var scope := Scope({"empty_value"}, 1, 1, 2, 1, 1, 0);
    assert Texts(classes) == {"empty_value"};
    assert entries[1..] == [] && Planned(entries) == 1;
    assert Bounded(o, scope);
  }
}
