/** Comparison keys: the fingerprint of a tool call and of a whole plan. */
module Keys {
  import opened Options
  import opened Json
  import opened JsonOrder
  import opened JsonFaithful
  import JsonScan
  import opened Plans

  /** `canonical_tool_call`. */
  function CanonicalCall(name: string, arguments: Json): string {
    name + ":" + Dumps(arguments, false)
  }

  /** Two calls share a key exactly when they name the same tool with equal arguments,
      object key order aside. */
  lemma CanonicalCallFaithful(m: string, a: Json, n: string, b: Json)
    requires WellFormed(a) && WellFormed(b)
    ensures CanonicalCall(m, a) == CanonicalCall(n, b) <==> m == n && Same(a, b)
  {
    DumpsFaithful(a, b, false);
    if CanonicalCall(m, a) == CanonicalCall(n, b) {
      NameIsNotLonger(m, a, n, b);
      NameIsNotLonger(n, b, m, a);
      CancelPrefix(m + ":", n + ":", Dumps(a, false), Dumps(b, false));
      CancelPrefix(m, n, ":", ":");
    }
  }

  /** The colon behind a longer name would stand in the text of the other call's arguments, with
      a whole value behind it. */
  lemma NameIsNotLonger(m: string, a: Json, n: string, b: Json)
    requires WellFormed(a) && WellFormed(b) && CanonicalCall(m, a) == CanonicalCall(n, b)
    ensures |n| <= |m|
  {
    if |m| < |n| {
      var x, y := Dumps(a, false), Dumps(b, false);
      var key := m + ":" + x;
      var before := n[|m| + 1..];
      assert key[..|n|] == n && key[|n|..] == ":" + y;
      assert key[|m| + 1..] == x;
      assert x == before + ":" + y;
      NormalizeWellFormed(a);
      NormalizeWellFormed(b);
      JsonScan.NoValueBehindColon(Normalize(a), Normalize(b), false, before);
    }
  }

  // ---------------------------------------------------------------------
  // Plans

  function Texts(names: seq<string>): (r: seq<Json>)
    ensures |r| == |names| && forall i | 0 <= i < |r| :: r[i] == Str(names[i])
  {
    seq(|names|, i requires 0 <= i < |names| => Str(names[i]))
  }

  function NameFields(names: seq<string>): (r: Fields)
    ensures |r| == |names| && forall i | 0 <= i < |r| :: r[i] == Field(names[i], Null)
  {
    seq(|names|, i requires 0 <= i < |names| => Field(names[i], Null))
  }

  /** `sorted(names)`. */
  function SortedNames(names: seq<string>): seq<string> {
    var fs := SortFields(NameFields(names));
    seq(|fs|, i requires 0 <= i < |fs| => fs[i].key)
  }

  function CallPayload(call: Option<PlannedCall>): Json {
    match call
    case None => Null
    case Some(c) => Obj([Field("name", Str(c.name)), Field("arguments", Obj(c.arguments))])
  }

  function PayloadFields(id: Json, objective: Json, dependencies: Json, tools: Json, call: Json,
                         priority: Json): Fields {
    [ Field("task_id", id), Field("objective", objective), Field("dependencies", dependencies),
      Field("required_tools", tools), Field("tool_call", call), Field("priority", priority) ]
  }

  function TaskPayload(t: PlanTask): Json {
    Obj(PayloadFields(Str(t.taskId), Str(t.objective), Arr(Texts(SortedNames(t.dependencies))),
                      Arr(Texts(t.requiredTools)), CallPayload(t.call), Int(t.priority)))
  }

  function PlanPayload(p: TaskPlan): Json {
    Arr(seq(|p.tasks|, i requires 0 <= i < |p.tasks| => TaskPayload(p.tasks[i])))
  }

  /** `plan_fingerprint`. */
  function PlanFingerprint(p: TaskPlan): string {
    Dumps(PlanPayload(p), true)
  }

  ghost predicate SameCall(a: Option<PlannedCall>, b: Option<PlannedCall>) {
    match (a, b)
    case (Some(c), Some(d)) => c.name == d.name && Same(Obj(c.arguments), Obj(d.arguments))
    case _ => a == b
  }

  /** The same work: everything but status, attempts, failure reason and the order of the
      dependencies and argument keys. */
  ghost predicate SameWork(t: PlanTask, u: PlanTask) {
    && t.taskId == u.taskId
    && t.objective == u.objective
    && (set d | d in t.dependencies) == (set d | d in u.dependencies)
    && t.requiredTools == u.requiredTools
    && SameCall(t.call, u.call)
    && t.priority == u.priority
  }

  /** Two plans share a fingerprint exactly when they list the same work in the same order. */
  lemma PlanFingerprintFaithful(p: TaskPlan, q: TaskPlan)
    requires ValidPlan(p) && ValidPlan(q)
    ensures PlanFingerprint(p) == PlanFingerprint(q) <==>
            |p.tasks| == |q.tasks| && forall i | 0 <= i < |p.tasks| :: SameWork(p.tasks[i], q.tasks[i])
  {
    forall i | 0 <= i < |p.tasks| ensures WellFormed(TaskPayload(p.tasks[i])) {
      TaskPayloadWellFormed(p.tasks[i]);
    }
    forall i | 0 <= i < |q.tasks| ensures WellFormed(TaskPayload(q.tasks[i])) {
      TaskPayloadWellFormed(q.tasks[i]);
    }
    DumpsFaithful(PlanPayload(p), PlanPayload(q), true);
    if |p.tasks| == |q.tasks| {
      forall i | 0 <= i < |p.tasks|
        ensures Same(TaskPayload(p.tasks[i]), TaskPayload(q.tasks[i])) <==> SameWork(p.tasks[i], q.tasks[i])
      {
        SamePayloadIffSameWork(p.tasks[i], q.tasks[i]);
      }
      var ps, qs := PlanPayload(p).items, PlanPayload(q).items;
      assert forall i | 0 <= i < |ps| :: ps[i] == TaskPayload(p.tasks[i]) && qs[i] == TaskPayload(q.tasks[i]);
    }
  }

  lemma TaskPayloadWellFormed(t: PlanTask)
    requires ValidTask(t)
    ensures WellFormed(TaskPayload(t))
  {
  }

  /** Objects with the same keys in the same places are equal when their values are. */
  lemma AlignedObjects(fs: Fields, gs: Fields)
    requires |fs| == |gs| && DistinctKeys(fs)
    requires forall i | 0 <= i < |fs| :: fs[i].key == gs[i].key
    ensures Same(Obj(fs), Obj(gs)) <==> forall i | 0 <= i < |fs| :: Same(fs[i].value, gs[i].value)
  {
    if Same(Obj(fs), Obj(gs)) {
      forall i | 0 <= i < |fs| ensures Same(fs[i].value, gs[i].value) {
        assert SameIn(fs[i], gs);
        var j :| 0 <= j < |gs| && fs[i].key == gs[j].key && Same(fs[i].value, gs[j].value);
        assert fs[j].key == gs[j].key;
        assert i == j;
      }
    }
    if forall i | 0 <= i < |fs| :: Same(fs[i].value, gs[i].value) {
      forall i | 0 <= i < |fs|
        ensures SameIn(fs[i], gs)
      {
        assert fs[i].key == gs[i].key && Same(fs[i].value, gs[i].value);
      }
    }
  }

  lemma SamePayloadIffSameWork(t: PlanTask, u: PlanTask)
    requires ValidTask(t) && ValidTask(u)
    ensures Same(TaskPayload(t), TaskPayload(u)) <==> SameWork(t, u)
  {
    SamePayloadFields(t, u);
    SameNames(SortedNames(t.dependencies), SortedNames(u.dependencies));
    SortedNamesFaithful(t.dependencies, u.dependencies);
    SameNames(t.requiredTools, u.requiredTools);
    SameCallPayload(t.call, u.call);
  }

  lemma SamePayloadFields(t: PlanTask, u: PlanTask)
    ensures Same(TaskPayload(t), TaskPayload(u)) <==>
            && t.taskId == u.taskId
            && t.objective == u.objective
            && Same(Arr(Texts(SortedNames(t.dependencies))), Arr(Texts(SortedNames(u.dependencies))))
            && Same(Arr(Texts(t.requiredTools)), Arr(Texts(u.requiredTools)))
            && Same(CallPayload(t.call), CallPayload(u.call))
            && t.priority == u.priority
  {
    SamePayload(Str(t.taskId), Str(t.objective), Arr(Texts(SortedNames(t.dependencies))),
                Arr(Texts(t.requiredTools)), CallPayload(t.call), Int(t.priority),
                Str(u.taskId), Str(u.objective), Arr(Texts(SortedNames(u.dependencies))),
                Arr(Texts(u.requiredTools)), CallPayload(u.call), Int(u.priority));
  }

  lemma PayloadKeys(a0: Json, a1: Json, a2: Json, a3: Json, a4: Json, a5: Json)
    ensures DistinctKeys(PayloadFields(a0, a1, a2, a3, a4, a5))
  {
    var fs := PayloadFields(a0, a1, a2, a3, a4, a5);
    assert "objective"[0] != "tool_call"[0];
    assert fs[1].key == "objective" && fs[4].key == "tool_call";
    assert |fs[0].key| == 7 && |fs[2].key| == 12 && |fs[3].key| == 14 && |fs[5].key| == 8;
    assert |fs[1].key| == 9 == |fs[4].key|;
  }

  lemma SamePayload(a0: Json, a1: Json, a2: Json, a3: Json, a4: Json, a5: Json,
                    b0: Json, b1: Json, b2: Json, b3: Json, b4: Json, b5: Json)
    ensures Same(Obj(PayloadFields(a0, a1, a2, a3, a4, a5)), Obj(PayloadFields(b0, b1, b2, b3, b4, b5))) <==>
            Same(a0, b0) && Same(a1, b1) && Same(a2, b2) && Same(a3, b3) && Same(a4, b4) && Same(a5, b5)
  {
    hide DistinctKeys, Same;
    var fs, gs := PayloadFields(a0, a1, a2, a3, a4, a5), PayloadFields(b0, b1, b2, b3, b4, b5);
    PayloadKeys(a0, a1, a2, a3, a4, a5);
    assert forall i | 0 <= i < |fs| :: fs[i].key == gs[i].key;
    AlignedObjects(fs, gs);
    assert fs[0].value == a0 && gs[0].value == b0 && fs[1].value == a1 && gs[1].value == b1;
    assert fs[2].value == a2 && gs[2].value == b2 && fs[3].value == a3 && gs[3].value == b3;
    assert fs[4].value == a4 && gs[4].value == b4 && fs[5].value == a5 && gs[5].value == b5;
  }

  lemma SameNames(a: seq<string>, b: seq<string>)
    ensures Same(Arr(Texts(a)), Arr(Texts(b))) <==> a == b
  {
    if Same(Arr(Texts(a)), Arr(Texts(b))) {
      forall i | 0 <= i < |a| ensures a[i] == b[i] {
        assert Same(Texts(a)[i], Texts(b)[i]);
      }
    }
  }

  lemma SameCallPayload(a: Option<PlannedCall>, b: Option<PlannedCall>)
    ensures Same(CallPayload(a), CallPayload(b)) <==> SameCall(a, b)
  {
    if a.Some? && b.Some? {
      var fs, gs := CallPayload(a).fields, CallPayload(b).fields;
      AlignedObjects(fs, gs);
      assert fs[0].value == Str(a.value.name) && gs[0].value == Str(b.value.name);
      assert fs[1].value == Obj(a.value.arguments) && gs[1].value == Obj(b.value.arguments);
    }
  }

  /** Sorting forgets exactly the order of distinct names. */
  lemma SortedNamesFaithful(a: seq<string>, b: seq<string>)
    requires Distinct(a) && Distinct(b)
    ensures SortedNames(a) == SortedNames(b) <==> (set d | d in a) == (set d | d in b)
  {
    SortedNamesContents(a);
    SortedNamesContents(b);
    if (set d | d in a) == (set d | d in b) {
      var fs, gs := SortFields(NameFields(a)), SortFields(NameFields(b));
      SortFieldsSorts(NameFields(a));
      SortFieldsSorts(NameFields(b));
      var sa, sb := set d | d in a, set d | d in b;
      forall f: Field ensures f in fs <==> f in gs {
        NameFieldsContents(a, f);
        NameFieldsContents(b, f);
        assert (f.key in a <==> f.key in sa) && (f.key in b <==> f.key in sb);
        assert (f in fs <==> f in NameFields(a)) && (f in gs <==> f in NameFields(b));
      }
      SortedIsUnique(fs, gs);
    } else {
      assert forall d :: d in a <==> d in SortedNames(a);
    }
  }

  lemma NameFieldsContents(names: seq<string>, f: Field)
    ensures f in NameFields(names) <==> f.value == Null && f.key in names
  {
    if f.value == Null && f.key in names {
      var i :| 0 <= i < |names| && names[i] == f.key;
      assert NameFields(names)[i] == f;
    }
  }

  lemma SortedNamesContents(names: seq<string>)
    requires Distinct(names)
    ensures forall d :: d in SortedNames(names) <==> d in names
  {
    var fs := SortFields(NameFields(names));
    SortFieldsSorts(NameFields(names));
    forall d ensures d in SortedNames(names) <==> d in names {
      NameFieldsContents(names, Field(d, Null));
      if d in names {
        assert Field(d, Null) in fs;
        var i :| 0 <= i < |fs| && fs[i] == Field(d, Null);
        assert SortedNames(names)[i] == d;
      }
      if d in SortedNames(names) {
        var i :| 0 <= i < |fs| && SortedNames(names)[i] == d;
        NameFieldsContents(names, fs[i]);
        assert fs[i] in fs;
      }
    }
  }
}
