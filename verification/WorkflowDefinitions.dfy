/** Definition checks and the heap-driven ordering loop of core/workflow_models.py, proved against the greedy order. */
module WorkflowDefinitions {
  import opened Prelude
  import opened TopologicalOrder

  datatype StepRow = StepRow(id: Option<string>, dependsOn: seq<string>)

  datatype Mode = Sequential | Dag | UnknownMode

  datatype Definition = Definition(steps: seq<StepRow>, mode: Mode, maxParallel: int, timeout: Option<real>)

  datatype Fault =
    | EmptyWorkflow | DagMetadata | ParallelMetadata | InvalidMode | TooLarge | InvalidCap | InvalidTimeout
    | InvalidStepId | DuplicateStepId | TooManyDependencies | DuplicateDependency | SelfDependency
    | UnknownDependency | CyclicDependencies

  datatype Outcome = Order(steps: seq<nat>) | Rejected(fault: Fault)

  // ----- What a definition must satisfy -----

  predicate IdCharacter(c: char) {
    'A' <= c <= 'Z' || 'a' <= c <= 'z' || '0' <= c <= '9' || c == '_' || c == '-'
  }

  predicate ValidId(id: Option<string>) {
    id.Some? && 1 <= |id.value| <= 100 && forall k :: 0 <= k < |id.value| ==> IdCharacter(id.value[k])
  }

  predicate NoDuplicates(names: seq<string>) { forall p, q :: 0 <= p < q < |names| ==> names[p] != names[q] }

  predicate Plain(step: StepRow) { step.id.None? && step.dependsOn == [] }

  predicate SequentialOk(d: Definition) {
    d.steps != [] && (forall i :: 0 <= i < |d.steps| ==> Plain(d.steps[i])) && d.maxParallel == 1 && d.timeout.None?
  }

  predicate HeaderOk(d: Definition) {
    && d.steps != [] && |d.steps| <= 100 && 1 <= d.maxParallel <= 16
    && d.timeout.Some? && 0.0 < d.timeout.value <= 86400.0
  }

  predicate IdsOk(steps: seq<StepRow>) {
    && (forall i :: 0 <= i < |steps| ==> ValidId(steps[i].id))
    && (forall i, j :: 0 <= i < j < |steps| ==> steps[i].id != steps[j].id)
  }

  ghost predicate Names(steps: seq<StepRow>, name: string) { exists j :: 0 <= j < |steps| && steps[j].id == Some(name) }

  ghost predicate DependencyOk(steps: seq<StepRow>, step: StepRow, name: string) {
    Some(name) != step.id && Names(steps, name)
  }

  ghost predicate StepOk(steps: seq<StepRow>, step: StepRow) {
    && |step.dependsOn| <= 99 && NoDuplicates(step.dependsOn)
    && forall k :: 0 <= k < |step.dependsOn| ==> DependencyOk(steps, step, step.dependsOn[k])
  }

  ghost predicate StepsOk(steps: seq<StepRow>) { forall i :: 0 <= i < |steps| ==> StepOk(steps, steps[i]) }

  ghost predicate DagOk(d: Definition) { HeaderOk(d) && IdsOk(d.steps) && StepsOk(d.steps) }

  /** The steps named by the dependencies of a step. */
  ghost function Parents(steps: seq<StepRow>, names: seq<string>): (r: set<nat>)
    ensures forall j :: j in r ==> 0 <= j < |steps|
  {
    set j | 0 <= j < |steps| && steps[j].id.Some? && steps[j].id.value in names
  }

  ghost function Dependencies(steps: seq<StepRow>): (deps: Graph)
    ensures Closed(deps) && |deps| == |steps|
  {
    seq(|steps|, i requires 0 <= i < |steps| => Parents(steps, steps[i].dependsOn))
  }

  /** The condition that each error reports. */
  ghost predicate Explains(d: Definition, f: Fault) {
    match f
    case EmptyWorkflow => d.steps == []
    case DagMetadata => d.mode == Sequential && exists i :: 0 <= i < |d.steps| && !Plain(d.steps[i])
    case ParallelMetadata => d.mode == Sequential && (d.maxParallel != 1 || d.timeout.Some?)
    case InvalidMode => d.mode == UnknownMode
    case TooLarge => |d.steps| > 100
    case InvalidCap => !(1 <= d.maxParallel <= 16)
    case InvalidTimeout => d.timeout.None? || !(0.0 < d.timeout.value <= 86400.0)
    case InvalidStepId => exists i :: 0 <= i < |d.steps| && !ValidId(d.steps[i].id)
    case DuplicateStepId => exists i, j :: 0 <= i < j < |d.steps| && d.steps[i].id == d.steps[j].id
    case TooManyDependencies => exists i :: 0 <= i < |d.steps| && |d.steps[i].dependsOn| > 99
    case DuplicateDependency => exists i :: 0 <= i < |d.steps| && !NoDuplicates(d.steps[i].dependsOn)
    case SelfDependency =>
      exists i, k :: 0 <= i < |d.steps| && 0 <= k < |d.steps[i].dependsOn| && d.steps[i].id == Some(d.steps[i].dependsOn[k])
    case UnknownDependency =>
      exists i, k :: 0 <= i < |d.steps| && 0 <= k < |d.steps[i].dependsOn| && !Names(d.steps, d.steps[i].dependsOn[k])
    case CyclicDependencies => d.mode == Dag && DagOk(d) && HasCycle(Dependencies(d.steps))
  }

  // ----- Kahn's loop -----

  /** The in-degree column counts the dependencies that are still missing. */
  ghost predicate Degrees(deps: Graph, done: seq<nat>, indegree: seq<nat>) {
    |indegree| == |deps| && forall i :: 0 <= i < |deps| ==> indegree[i] == |deps[i] - Elements(done)|
  }

  /** `kids` lists, once each, the steps that depend on p. */
  ghost predicate Lists(deps: Graph, p: nat, kids: seq<nat>) {
    Distinct(kids) && forall i: nat :: i in kids <==> i < |deps| && p in deps[i]
  }

  ghost predicate Ready(deps: Graph, done: seq<nat>, ready: set<nat>) {
    forall i: nat :: i in ready <==> Available(deps, done, i)
  }

  /** `heappop`: the least element. */
  method PopLeast(ready: set<nat>) returns (least: nat)
    requires ready != {}
    ensures least in ready && forall i :: i in ready ==> least <= i
  {
    least :| least in ready;
    var rest := ready - {least};
    while rest != {}
      invariant rest <= ready && least in ready
      invariant forall i :: i in ready && i !in rest ==> least <= i
      decreases |rest|
    {
      var i :| i in rest;
      if i < least { least := i; }
      rest := rest - {i};
    }
  }

  /** Count index as done for each of its children; a child with nothing missing becomes ready. */
  method Relax(ghost deps: Graph, ghost done: seq<nat>, index: nat, kids: seq<nat>, indegree: seq<nat>, ready: set<nat>)
    returns (indegree': seq<nat>, ready': set<nat>)
    requires Degrees(deps, done, indegree) && index !in done && Lists(deps, index, kids)
    ensures Degrees(deps, done + [index], indegree')
    ensures forall i :: i in ready' <==> i in ready || (i in kids && i < |deps| && indegree'[i] == 0)
  {
    indegree', ready' := indegree, ready;
    for k := 0 to |kids|
      invariant |indegree'| == |deps|
      invariant forall i :: 0 <= i < |deps| ==> indegree'[i] + (if i in kids[..k] then 1 else 0) == indegree[i]
      invariant forall i :: i in ready' <==> i in ready || (i in kids[..k] && i < |deps| && indegree'[i] == 0)
    {
      var child := kids[k];
      assert child in kids && index in deps[child] - Elements(done);
      assert kids[..k + 1] == kids[..k] + [child];
      assert child !in kids[..k];
      indegree' := indegree'[child := indegree'[child] - 1];
      if indegree'[child] == 0 { ready' := ready' + {child}; }
    }
    assert kids[..|kids|] == kids;
    forall i | 0 <= i < |deps| ensures indegree'[i] == |deps[i] - Elements(done + [index])| {
      OneMoreDone(deps[i], done, index);
      assert i in kids <==> index in deps[i];
    }
  }

  lemma OneMoreDone(needs: set<nat>, done: seq<nat>, index: nat)
    requires index !in done
    ensures |needs - Elements(done + [index])| == |needs - Elements(done)| - (if index in needs then 1 else 0)
  {
    ElementsGrow(done, index);
    assert needs - Elements(done + [index]) == (needs - Elements(done)) - {index};
  }

  lemma ElementsGrow(done: seq<nat>, index: nat)
    ensures Elements(done + [index]) == Elements(done) + {index}
  {
    forall i | i in Elements(done) + {index} ensures i in Elements(done + [index]) {
      if i == index { assert (done + [index])[|done|] == index; }
      else {
        var p :| 0 <= p < |done| && done[p] == i;
        assert (done + [index])[p] == i;
      }
    }
  }

  /** What became available after index are the children with nothing missing; nothing else changed but index itself. */
  lemma ReadyAfter(deps: Graph, done: seq<nat>, index: nat, kids: seq<nat>, indegree: seq<nat>, ready: set<nat>, ready': set<nat>)
    requires Legal(deps, done) && Available(deps, done, index) && Ready(deps, done, ready)
    requires Lists(deps, index, kids) && Degrees(deps, done + [index], indegree)
    requires forall i :: i in ready' <==> i in ready - {index} || (i in kids && i < |deps| && indegree[i] == 0)
    ensures Ready(deps, done + [index], ready')
  {
    forall i: nat ensures i in ready' <==> Available(deps, done + [index], i) {
      if i < |deps| {
        NothingMissing(deps[i], done + [index]);
        DependentNotDone(deps, done, index, i);
        AvailableAfter(deps, done, index, i);
      }
    }
  }

  lemma NothingMissing(needs: set<nat>, done: seq<nat>)
    ensures |needs - Elements(done)| == 0 <==> forall d :: d in needs ==> d in done
  {
    if forall d :: d in needs ==> d in done { assert needs - Elements(done) == {}; }
    else {
      var d :| d in needs && d !in done;
      assert d in needs - Elements(done);
    }
  }

  lemma AvailableAfter(deps: Graph, done: seq<nat>, index: nat, i: nat)
    requires Legal(deps, done) && Available(deps, done, index) && i < |deps|
    requires index in deps[i] ==> i !in done + [index]
    ensures Available(deps, done + [index], i) <==>
            if index in deps[i] then forall d :: d in deps[i] ==> d in done + [index] else i != index && Available(deps, done, i)
    ensures index in deps[i] ==> !Available(deps, done, i)
  {
  }

  /** Nothing already done, nor index itself, depends on a step that is only now available. */
  lemma DependentNotDone(deps: Graph, done: seq<nat>, index: nat, i: nat)
    requires Legal(deps, done) && Available(deps, done, index) && i < |deps|
    ensures index in deps[i] ==> i !in done + [index]
  {
    if i in done {
      var p :| 0 <= p < |done| && done[p] == i;
      assert Available(deps, done[..p], done[p]);
    }
  }

  method Kahn(ghost deps: Graph, indegree: seq<nat>, children: seq<seq<nat>>) returns (order: seq<nat>)
    requires Closed(deps) && Degrees(deps, [], indegree)
    requires |children| == |deps| && forall p: nat :: p < |deps| ==> Lists(deps, p, children[p])
    ensures order == Greedy(deps, [])
  {
    order := [];
    var degree := indegree;
    var ready := set i: nat | 0 <= i < |indegree| && indegree[i] == 0;
    assert Ready(deps, order, ready) by {
      forall i: nat | i < |deps| ensures indegree[i] == 0 <==> Available(deps, [], i) { assert deps[i] - Elements([]) == deps[i]; }
    }
    while ready != {}
      invariant Legal(deps, order) && Degrees(deps, order, degree) && Ready(deps, order, ready)
      invariant Greedy(deps, order) == Greedy(deps, [])
      decreases |deps| - |order|
    {
      var index := PopLeast(ready);
      assert Available(deps, order, index);
      assert index == NextAvailable(deps, order, 0);
      LegalExtends(deps, order, index);
      LegalCount(deps, order + [index]);
      var degree', ready' := Relax(deps, order, index, children[index], degree, ready - {index});
      ReadyAfter(deps, order, index, children[index], degree', ready, ready');
      order, degree, ready := order + [index], degree', ready';
    }
  }

  // ----- Reading a definition -----

  /** `by_id` maps every step id to its position. */
  ghost predicate Indexes(steps: seq<StepRow>, byId: map<string, nat>) {
    && (forall name :: name in byId <==> Names(steps, name))
    && (forall name :: name in byId ==> byId[name] < |steps| && steps[byId[name]].id == Some(name))
  }

  method ReadIds(d: Definition) returns (fault: Option<Fault>, byId: map<string, nat>)
    ensures fault.None? <==> IdsOk(d.steps)
    ensures fault.None? ==> Indexes(d.steps, byId)
    ensures fault.Some? ==> fault.value != CyclicDependencies && Explains(d, fault.value)
  {
    byId := map[];
    for i := 0 to |d.steps|
      invariant IdsOk(d.steps[..i]) && Indexes(d.steps[..i], byId)
    {
      var step := d.steps[i];
      if !ValidId(step.id) { return Some(InvalidStepId), byId; }
      if step.id.value in byId {
        assert Names(d.steps[..i], step.id.value);
        return Some(DuplicateStepId), byId;
      }
      assert d.steps[..i + 1] == d.steps[..i] + [step];
      IndexMore(d.steps[..i], step, byId);
      byId := byId[step.id.value := i];
    }
    assert d.steps[..|d.steps|] == d.steps;
    return None, byId;
  }

  lemma IndexGrows(steps: seq<StepRow>, step: StepRow)
    ensures forall name :: Names(steps + [step], name) <==> Names(steps, name) || step.id == Some(name)
  {
    var all := steps + [step];
    assert all[|steps|] == step;
    forall j | 0 <= j < |steps| ensures all[j] == steps[j] { }
  }

  lemma IndexMore(steps: seq<StepRow>, step: StepRow, byId: map<string, nat>)
    requires IdsOk(steps) && Indexes(steps, byId) && ValidId(step.id) && step.id.value !in byId
    ensures IdsOk(steps + [step]) && Indexes(steps + [step], byId[step.id.value := |steps|])
  {
    IndexGrows(steps, step);
    forall i | 0 <= i < |steps| ensures steps[i].id != step.id { assert !Names(steps, step.id.value); }
  }

  /** Naming one more known step adds that step to the parents. */
  lemma ParentsGrow(steps: seq<StepRow>, byId: map<string, nat>, names: seq<string>, name: string)
    requires IdsOk(steps) && Indexes(steps, byId) && name in byId && name !in names
    ensures Parents(steps, names + [name]) == Parents(steps, names) + {byId[name]} && byId[name] !in Parents(steps, names)
  {
    forall j: nat | j < |steps| && steps[j].id == Some(name) ensures j == byId[name] { }
  }

  ghost predicate StepExplains(steps: seq<StepRow>, step: StepRow, f: Fault) {
    var names := step.dependsOn;
    || (f == TooManyDependencies && |names| > 99)
    || (f == DuplicateDependency && !NoDuplicates(names))
    || (f == SelfDependency && exists k :: 0 <= k < |names| && step.id == Some(names[k]))
    || (f == UnknownDependency && exists k :: 0 <= k < |names| && !Names(steps, names[k]))
  }

  lemma StepExplained(d: Definition, i: nat, f: Fault)
    requires i < |d.steps| && StepExplains(d.steps, d.steps[i], f)
    ensures f != CyclicDependencies && Explains(d, f)
  {
  }

  /** Step i was appended to the list of each of its parents. */
  ghost predicate Entered(parents: set<nat>, i: nat, children: seq<seq<nat>>, children': seq<seq<nat>>) {
    && |children'| == |children|
    && forall p: nat :: p < |children| ==> children'[p] == if p in parents then children[p] + [i] else children[p]
  }

  lemma EnterOne(parents: set<nat>, parent: nat, i: nat, children: seq<seq<nat>>, children': seq<seq<nat>>)
    requires Entered(parents, i, children, children') && parent !in parents && parent < |children|
    ensures Entered(parents + {parent}, i, children, children'[parent := children'[parent] + [i]])
  {
  }

  /** Reading one more name enters step i under one more parent. */
  lemma EnterName(steps: seq<StepRow>, byId: map<string, nat>, names: seq<string>, k: nat, i: nat,
                  children: seq<seq<nat>>, children': seq<seq<nat>>)
    requires IdsOk(steps) && Indexes(steps, byId) && |children| == |steps|
    requires k < |names| && NoDuplicates(names) && names[k] in byId
    requires Entered(Parents(steps, names[..k]), i, children, children')
    ensures |Parents(steps, names[..k + 1])| == |Parents(steps, names[..k])| + 1
    ensures byId[names[k]] < |children'|
    ensures Entered(Parents(steps, names[..k + 1]), i, children, children'[byId[names[k]] := children'[byId[names[k]]] + [i]])
  {
    assert names[..k + 1] == names[..k] + [names[k]];
    ParentsGrow(steps, byId, names[..k], names[k]);
    EnterOne(Parents(steps, names[..k]), byId[names[k]], i, children, children');
  }

  /** The dependencies of step i: its in-degree, and i entered once under each parent. */
  method ReadStep(steps: seq<StepRow>, i: nat, byId: map<string, nat>, children: seq<seq<nat>>)
    returns (fault: Option<Fault>, degree: nat, children': seq<seq<nat>>)
    requires IdsOk(steps) && Indexes(steps, byId) && i < |steps| && |children| == |steps|
    ensures fault.None? <==> StepOk(steps, steps[i])
    ensures fault.Some? ==> StepExplains(steps, steps[i], fault.value)
    ensures fault.None? ==> degree == |Parents(steps, steps[i].dependsOn)|
    ensures fault.None? ==> Entered(Parents(steps, steps[i].dependsOn), i, children, children')
  {
    var names := steps[i].dependsOn;
    if |names| > 99 { return Some(TooManyDependencies), 0, children; }
    if !NoDuplicates(names) { return Some(DuplicateDependency), 0, children; }
    fault, degree, children' := ReadNames(steps, i, byId, children);
  }

  method ReadNames(steps: seq<StepRow>, i: nat, byId: map<string, nat>, children: seq<seq<nat>>)
    returns (fault: Option<Fault>, degree: nat, children': seq<seq<nat>>)
    requires IdsOk(steps) && Indexes(steps, byId) && i < |steps| && |children| == |steps|
    requires NoDuplicates(steps[i].dependsOn)
    ensures fault.None? <==> forall k :: 0 <= k < |steps[i].dependsOn| ==> DependencyOk(steps, steps[i], steps[i].dependsOn[k])
    ensures fault.Some? ==> StepExplains(steps, steps[i], fault.value)
    ensures fault.None? ==> degree == |Parents(steps, steps[i].dependsOn)|
    ensures fault.None? ==> Entered(Parents(steps, steps[i].dependsOn), i, children, children')
  {
    var names := steps[i].dependsOn;
    degree, children' := 0, children;
    for k := 0 to |names|
      invariant forall m :: 0 <= m < k ==> DependencyOk(steps, steps[i], names[m])
      invariant degree == |Parents(steps, names[..k])|
      invariant Entered(Parents(steps, names[..k]), i, children, children')
    {
      if steps[i].id == Some(names[k]) { return Some(SelfDependency), degree, children'; }
      if names[k] !in byId { return Some(UnknownDependency), degree, children'; }
      EnterName(steps, byId, names, k, i, children, children');
      var parent := byId[names[k]];
      degree, children' := degree + 1, children'[parent := children'[parent] + [i]];
    }
    assert names[..|names|] == names;
    return None, degree, children';
  }

  /** `kids` lists, once each, the steps before n that depend on p. */
  ghost predicate ListsBelow(deps: Graph, p: nat, kids: seq<nat>, n: nat)
    requires n <= |deps|
  {
    Distinct(kids) && forall i: nat :: i in kids <==> i < n && p in deps[i]
  }

  lemma OneMoreListed(deps: Graph, p: nat, kids: seq<nat>, n: nat)
    requires n < |deps| && ListsBelow(deps, p, kids, n)
    ensures ListsBelow(deps, p, if p in deps[n] then kids + [n] else kids, n + 1)
  {
  }

  ghost predicate ListsAllBelow(deps: Graph, children: seq<seq<nat>>, n: nat)
    requires n <= |deps|
  {
    |children| == |deps| && forall p: nat :: p < |deps| ==> ListsBelow(deps, p, children[p], n)
  }

  lemma AllListed(deps: Graph, n: nat, children: seq<seq<nat>>, children': seq<seq<nat>>)
    requires n < |deps| && ListsAllBelow(deps, children, n) && Entered(deps[n], n, children, children')
    ensures ListsAllBelow(deps, children', n + 1)
  {
    forall p: nat | p < |deps| ensures ListsBelow(deps, p, children'[p], n + 1) { OneMoreListed(deps, p, children[p], n); }
  }

  method ReadDependencies(d: Definition, byId: map<string, nat>)
    returns (fault: Option<Fault>, indegree: seq<nat>, children: seq<seq<nat>>)
    requires IdsOk(d.steps) && Indexes(d.steps, byId)
    ensures fault.None? <==> StepsOk(d.steps)
    ensures fault.Some? ==> fault.value != CyclicDependencies && Explains(d, fault.value)
    ensures fault.None? ==> Degrees(Dependencies(d.steps), [], indegree) && |children| == |d.steps|
    ensures fault.None? ==> forall p: nat :: p < |d.steps| ==> Lists(Dependencies(d.steps), p, children[p])
  {
    ghost var deps := Dependencies(d.steps);
    indegree, children := [], seq(|d.steps|, _ => []);
    for i := 0 to |d.steps|
      invariant forall m :: 0 <= m < i ==> StepOk(d.steps, d.steps[m])
      invariant |indegree| == i && forall m :: 0 <= m < i ==> indegree[m] == |deps[m]|
      invariant ListsAllBelow(deps, children, i)
    {
      var stepFault, degree, children' := ReadStep(d.steps, i, byId, children);
      if stepFault.Some? { StepExplained(d, i, stepFault.value); return stepFault, indegree, children; }
      AllListed(deps, i, children, children');
      indegree, children := indegree + [degree], children';
    }
    forall i | 0 <= i < |deps| ensures deps[i] - Elements([]) == deps[i] { }
    return None, indegree, children;
  }

  /** `workflow_topological_order`. A cycle is reported exactly when the checked graph has one; otherwise the answer is
      the lexicographically least permutation in which every dependency comes first. */
  method WorkflowTopologicalOrder(d: Definition) returns (r: Outcome)
    ensures r.Order? <==> (d.mode == Sequential && SequentialOk(d)) || (d.mode == Dag && DagOk(d) && !HasCycle(Dependencies(d.steps)))
    ensures r.Rejected? ==> Explains(d, r.fault)
    ensures r == Rejected(CyclicDependencies) <==> d.mode == Dag && DagOk(d) && HasCycle(Dependencies(d.steps))
    ensures r.Order? && d.mode == Sequential ==> r.steps == seq(|d.steps|, i requires 0 <= i < |d.steps| => i)
    ensures r.Order? && d.mode == Dag ==> Topological(Dependencies(d.steps), r.steps)
    ensures r.Order? && d.mode == Dag ==> forall other :: Topological(Dependencies(d.steps), other) ==> LexAtMost(r.steps, other)
  {
    if d.steps == [] { return Rejected(EmptyWorkflow); }
    if d.mode == Sequential {
      if exists i :: 0 <= i < |d.steps| && !Plain(d.steps[i]) { return Rejected(DagMetadata); }
      if d.maxParallel != 1 || d.timeout.Some? { return Rejected(ParallelMetadata); }
      return Order(seq(|d.steps|, i requires 0 <= i < |d.steps| => i));
    }
    if d.mode != Dag { return Rejected(InvalidMode); }
    if |d.steps| > 100 { return Rejected(TooLarge); }
    if !(1 <= d.maxParallel <= 16) { return Rejected(InvalidCap); }
    if d.timeout.None? || !(0.0 < d.timeout.value <= 86400.0) { return Rejected(InvalidTimeout); }
    var idFault, byId := ReadIds(d);
    if idFault.Some? { return Rejected(idFault.value); }
    var depFault, indegree, children := ReadDependencies(d, byId);
    if depFault.Some? { return Rejected(depFault.value); }
    ghost var deps := Dependencies(d.steps);
    var order := Kahn(deps, indegree, children);
    CompleteIffAcyclic(deps);
    if |order| != |d.steps| { return Rejected(CyclicDependencies); }
    forall other | Topological(deps, other) ensures LexAtMost(order, other) { GreedyIsLeast(deps, [], other); }
    return Order(order);
  }
}
