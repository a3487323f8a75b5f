/** Evidence references: `{"$ref": "task_id.field.subfield"}` inside planned arguments. */
module References {
  import opened Options
  import opened Json
  import opened Memory

  /** `text.split(c)`. */
  function Split(text: string, c: char): (parts: seq<string>)
    ensures parts != []
  {
    if text == "" then [""]
    else
      var rest := Split(text[1..], c);
      if text[0] == c then [""] + rest else [[text[0]] + rest[0]] + rest[1..]
  }

  /** `text.partition(".")`: what stands before and after the first dot, if there is one. */
  function Partition(text: string): (r: Option<(string, string)>)
    ensures r.None? <==> '.' !in text
    ensures r.Some? ==> '.' !in r.value.0 && text == r.value.0 + "." + r.value.1
  {
    if text == "" then None
    else if text[0] == '.' then Some(("", text[1..]))
    else
      assert text == [text[0]] + text[1..];
      match Partition(text[1..])
      case None => None
      case Some(p) => Some(([text[0]] + p.0, p.1))
  }

  /** The latest successful evidence of a task. */
  function Latest(evidence: seq<ToolEvidence>, id: string): (i: Option<nat>)
    ensures i.Some? ==> i.value < |evidence| && evidence[i.value].taskId == id && evidence[i.value].ok
    ensures i.Some? ==> forall j | i.value < j < |evidence| :: !(evidence[j].taskId == id && evidence[j].ok)
    ensures i.None? ==> forall j | 0 <= j < |evidence| :: !(evidence[j].taskId == id && evidence[j].ok)
  {
    if evidence == [] then None
    else
      var last := |evidence| - 1;
      if evidence[last].taskId == id && evidence[last].ok then Some(last)
      else Latest(evidence[..last], id)
  }

  function Follow(v: Json, path: seq<string>): Option<Json> {
    if path == [] then Some(v)
    else if !v.Obj? then None
    else
      match Lookup(v.fields, path[0])
      case None => None
      case Some(next) => Follow(next, path[1..])
  }

  /** `_resolve_reference`; None stands for its ValueError. */
  function ResolveReference(reference: string, evidence: seq<ToolEvidence>): Option<Json> {
    match Partition(reference)
    case None => None
    case Some(p) =>
      if p.1 == "" || Latest(evidence, p.0).None? then None
      else Follow(Obj(evidence[Latest(evidence, p.0).value].data), Split(p.1, '.'))
  }

  predicate IsReference(fs: Fields) {
    |fs| == 1 && fs[0].key == "$ref"
  }

  /** `resolve_arguments`; None stands for its ValueError. */
  function Resolve(v: Json, evidence: seq<ToolEvidence>): Option<Json>
    decreases v, 1
  {
    match v
    case Obj(fs) =>
      if IsReference(fs) then
        if fs[0].value.Str? then ResolveReference(fs[0].value.s, evidence) else None
      else
        (match ResolveFields(fs, evidence)
         case None => None
         case Some(r) => Some(Obj(r)))
    case Arr(items) =>
      (match ResolveItems(items, evidence)
       case None => None
       case Some(r) => Some(Arr(r)))
    case _ => Some(v)
  }

  function ResolveItems(items: seq<Json>, evidence: seq<ToolEvidence>): Option<seq<Json>>
    decreases items, 0
  {
    if items == [] then Some([])
    else
      match (Resolve(items[0], evidence), ResolveItems(items[1..], evidence))
      case (Some(v), Some(rest)) => Some([v] + rest)
      case _ => None
  }

  function ResolveFields(fs: Fields, evidence: seq<ToolEvidence>): Option<Fields>
    decreases fs, 0
  {
    if fs == [] then Some([])
    else
      match (Resolve(fs[0].value, evidence), ResolveFields(fs[1..], evidence))
      case (Some(v), Some(rest)) => Some([Field(fs[0].key, v)] + rest)
      case _ => None
  }

  /** The references inside a value. */
  ghost function ReferencesIn(v: Json): set<string>
    decreases v, 1
  {
    match v
    case Obj(fs) =>
      if IsReference(fs) then if fs[0].value.Str? then {fs[0].value.s} else {}
      else ReferencesInFields(fs)
    case Arr(items) => ReferencesInItems(items)
    case _ => {}
  }

  ghost function ReferencesInItems(items: seq<Json>): set<string>
    decreases items, 0
  {
    if items == [] then {} else ReferencesIn(items[0]) + ReferencesInItems(items[1..])
  }

  ghost function ReferencesInFields(fs: Fields): set<string>
    decreases fs, 0
  {
    if fs == [] then {} else ReferencesIn(fs[0].value) + ReferencesInFields(fs[1..])
  }

  /** Arguments depend on evidence only through what their references resolve to. */
  lemma {:induction false} ResolveByReferences(v: Json, a: seq<ToolEvidence>, b: seq<ToolEvidence>)
    requires forall r | r in ReferencesIn(v) :: ResolveReference(r, a) == ResolveReference(r, b)
    ensures Resolve(v, a) == Resolve(v, b)
    decreases v, 1
  {
    match v
    case Obj(fs) =>
      if !IsReference(fs) {
        ResolveFieldsByReferences(fs, a, b);
      }
    case Arr(items) => ResolveItemsByReferences(items, a, b);
    case _ =>
  }

  lemma {:induction false} ResolveItemsByReferences(items: seq<Json>, a: seq<ToolEvidence>, b: seq<ToolEvidence>)
    requires forall r | r in ReferencesInItems(items) :: ResolveReference(r, a) == ResolveReference(r, b)
    ensures ResolveItems(items, a) == ResolveItems(items, b)
    decreases items, 0
  {
    if items != [] {
      ResolveByReferences(items[0], a, b);
      ResolveItemsByReferences(items[1..], a, b);
    }
  }

  lemma {:induction false} ResolveFieldsByReferences(fs: Fields, a: seq<ToolEvidence>, b: seq<ToolEvidence>)
    requires forall r | r in ReferencesInFields(fs) :: ResolveReference(r, a) == ResolveReference(r, b)
    ensures ResolveFields(fs, a) == ResolveFields(fs, b)
    decreases fs, 0
  {
    if fs != [] {
      ResolveByReferences(fs[0].value, a, b);
      ResolveFieldsByReferences(fs[1..], a, b);
    }
  }

  // ---------------------------------------------------------------------
  // What resolution means

  function Joined(parts: seq<string>, c: char): string
    requires parts != []
  {
    if |parts| == 1 then parts[0] else parts[0] + [c] + Joined(parts[1..], c)
  }

  lemma {:induction false} PartsJoin(text: string, c: char)
    ensures Joined(Split(text, c), c) == text
  {
    if text != "" {
      var rest := Split(text[1..], c);
      PartsJoin(text[1..], c);
      assert text == [text[0]] + text[1..];
      if text[0] == c {
        assert ([""] + rest)[1..] == rest;
      } else {
        assert ([[text[0]] + rest[0]] + rest[1..])[1..] == rest[1..];
      }
    }
  }

  lemma {:induction false} PartsAreClean(text: string, c: char)
    ensures forall i | 0 <= i < |Split(text, c)| :: c !in Split(text, c)[i]
  {
    if text != "" {
      PartsAreClean(text[1..], c);
    }
  }

  /** The parts are the text cut at every separator. */
  lemma {:induction false} SplitCuts(text: string, c: char)
    ensures Joined(Split(text, c), c) == text
    ensures forall i | 0 <= i < |Split(text, c)| :: c !in Split(text, c)[i]
  {
    hide Split, Joined;
    PartsJoin(text, c);
    PartsAreClean(text, c);
  }

  // ---------------------------------------------------------------------
  // What a reference names

  /** The dict `w` holds `v` under `key`. */
  ghost predicate Holds(w: Json, key: string, v: Json) {
    w.Obj? &&
    exists i :: 0 <= i < |w.fields| && w.fields[i] == Field(key, v) && forall j | 0 <= j < i :: w.fields[j].key != key
  }

  /** From `v`, each part of the path leads from one value to the next. */
  ghost predicate Walked(v: Json, path: seq<string>, w: seq<Json>) {
    |w| == |path| + 1 && w[0] == v && forall k | 0 <= k < |path| :: Holds(w[k], path[k], w[k + 1])
  }

  /** Evidence `i` is the last success of the task. */
  ghost predicate LastSuccess(evidence: seq<ToolEvidence>, id: string, i: nat) {
    && i < |evidence| && evidence[i].taskId == id && evidence[i].ok
    && forall j | i < j < |evidence| :: !(evidence[j].taskId == id && evidence[j].ok)
  }

  /** The reference is a task's name, a dot and a path, and the path leads from the data of the
      task's last success to `v`. */
  ghost predicate Refers(reference: string, v: Json, evidence: seq<ToolEvidence>) {
    exists id: string, parts: seq<string>, i: nat, w: seq<Json> ::
      && LastSuccess(evidence, id, i) && Walked(Obj(evidence[i].data), parts, w) && w[|parts|] == v
      && '.' !in id && parts != [] && parts != [""] && (forall k | 0 <= k < |parts| :: '.' !in parts[k])
      && reference == id + "." + Joined(parts, '.')
  }

  lemma {:induction false} LookupIsFirst(fs: Fields, key: string) returns (i: nat)
    requires Lookup(fs, key).Some?
    ensures i < |fs| && fs[i] == Field(key, Lookup(fs, key).value) && forall j | 0 <= j < i :: fs[j].key != key
  {
    if fs[0].key == key {
      i := 0;
    } else {
      i := LookupIsFirst(fs[1..], key);
      i := i + 1;
    }
  }

  lemma HoldsIsLookup(fs: Fields, key: string, v: Json)
    ensures Holds(Obj(fs), key, v) <==> Lookup(fs, key) == Some(v)
  {
    if Lookup(fs, key).Some? {
      var i := LookupIsFirst(fs, key);
    }
  }

  /** Following a path is walking it, value by value. */
  lemma {:induction false} FollowIsWalk(v: Json, path: seq<string>, r: Json)
    ensures Follow(v, path) == Some(r) <==> exists w :: Walked(v, path, w) && w[|path|] == r
  {
    hide Holds;
    if path == [] {
      if Follow(v, path) == Some(r) {
        assert Walked(v, path, [r]);
      }
    } else {
      if Follow(v, path) == Some(r) {
        var next := Lookup(v.fields, path[0]).value;
        HoldsIsLookup(v.fields, path[0], next);
        FollowIsWalk(next, path[1..], r);
        var w :| Walked(next, path[1..], w) && w[|path[1..]|] == r;
        StepsAhead(v, path, w);
        assert Walked(v, path, [v] + w);
      }
      if exists w :: Walked(v, path, w) && w[|path|] == r {
        var w :| Walked(v, path, w) && w[|path|] == r;
        assert Holds(w[0], path[0], w[1]);
        HoldsDict(v, path[0], w[1]);
        HoldsIsLookup(v.fields, path[0], w[1]);
        StepsBehind(v, path, w);
        FollowIsWalk(w[1], path[1..], r);
      }
    }
  }

  lemma HoldsDict(w: Json, key: string, v: Json)
    requires Holds(w, key, v)
    ensures w.Obj?
  {
  }

  lemma StepsAhead(v: Json, path: seq<string>, w: seq<Json>)
    requires path != [] && w != [] && Holds(v, path[0], w[0]) && Walked(w[0], path[1..], w)
    ensures Walked(v, path, [v] + w) && ([v] + w)[|path|] == w[|path[1..]|]
  {
    hide Holds;
    forall k | 0 <= k < |path| ensures Holds(([v] + w)[k], path[k], ([v] + w)[k + 1]) {
      if k > 0 {
        assert Holds(w[k - 1], path[1..][k - 1], w[k]);
      }
    }
  }

  lemma StepsBehind(v: Json, path: seq<string>, w: seq<Json>)
    requires path != [] && Walked(v, path, w)
    ensures Walked(w[1], path[1..], w[1..])
  {
    hide Holds;
    forall k | 0 <= k < |path[1..]| ensures Holds(w[1..][k], path[1..][k], w[1..][k + 1]) {
      assert Holds(w[k + 1], path[k + 1], w[k + 2]);
    }
  }

  lemma {:induction false} JoinedIsSplit(parts: seq<string>, c: char)
    requires parts != [] && forall k | 0 <= k < |parts| :: c !in parts[k]
    ensures Split(Joined(parts, c), c) == parts
  {
    if |parts| == 1 {
      CleanIsWhole(parts[0], c);
    } else {
      JoinedIsSplit(parts[1..], c);
      CutAtFirst(parts[0], c, Joined(parts[1..], c));
    }
  }

  lemma {:induction false} CleanIsWhole(text: string, c: char)
    requires c !in text
    ensures Split(text, c) == [text]
  {
    if text != "" {
      CleanIsWhole(text[1..], c);
      assert text == [text[0]] + text[1..];
    }
  }

  lemma {:induction false} CutAtFirst(text: string, c: char, rest: string)
    requires c !in text
    ensures Split(text + [c] + rest, c) == [text] + Split(rest, c)
  {
    var all := text + [c] + rest;
    if text == "" {
      assert all[1..] == rest;
    } else {
      assert all[1..] == text[1..] + [c] + rest;
      CutAtFirst(text[1..], c, rest);
      assert text == [text[0]] + text[1..];
    }
  }

  /** The first dot is the one before which there is none. */
  lemma FirstDot(id: string, path: string)
    requires '.' !in id
    ensures Partition(id + "." + path) == Some((id, path))
  {
    var text := id + "." + path;
    assert text[|id|] == '.';
    var p := Partition(text).value;
    assert forall j | 0 <= j < |id| :: text[j] == id[j] && text[j] != '.';
    assert forall j | 0 <= j < |p.0| :: text[j] == p.0[j] && text[j] != '.';
    assert text[|p.0|] == '.';
    assert |p.0| == |id|;
    assert text[..|id|] == id && text[..|id|] == p.0;
    assert text[|id| + 1..] == path && text[|id| + 1..] == p.1;
  }

  /** A reference resolves to exactly what it names. */
  lemma ReferenceNames(reference: string, v: Json, evidence: seq<ToolEvidence>)
    ensures ResolveReference(reference, evidence) == Some(v) <==> Refers(reference, v, evidence)
  {
    hide Follow, Split, Partition, Joined, Latest, Holds;
    if ResolveReference(reference, evidence) == Some(v) {
      var p := Partition(reference).value;
      var i, parts := Latest(evidence, p.0).value, Split(p.1, '.');
      FollowIsWalk(Obj(evidence[i].data), parts, v);
      var w :| Walked(Obj(evidence[i].data), parts, w) && w[|parts|] == v;
      SplitCuts(p.1, '.');
      JoinedAlone();
      assert Walked(Obj(evidence[i].data), parts, w) && LastSuccess(evidence, p.0, i);
    }
    if Refers(reference, v, evidence) {
      var id: string, parts: seq<string>, i: nat, w: seq<Json> :|
        && LastSuccess(evidence, id, i) && Walked(Obj(evidence[i].data), parts, w) && w[|parts|] == v
        && '.' !in id && parts != [] && parts != [""] && (forall k | 0 <= k < |parts| :: '.' !in parts[k])
        && reference == id + "." + Joined(parts, '.');
      FirstDot(id, Joined(parts, '.'));
      JoinedIsSplit(parts, '.');
      JoinedNotEmpty(parts);
      FollowIsWalk(Obj(evidence[i].data), parts, v);
      assert Latest(evidence, id) == Some(i);
    }
  }

  lemma JoinedAlone()
    ensures Joined([""], '.') == ""
  {
  }

  lemma JoinedNotEmpty(parts: seq<string>)
    requires parts != [] && parts != [""]
    ensures Joined(parts, '.') != ""
  {
  }

  /** `r` is `v` with every reference replaced by the value it names, and nothing else changed. */
  ghost predicate Replaced(v: Json, r: Json, evidence: seq<ToolEvidence>) {
    match v
    case Obj(fs) =>
      if |fs| == 1 && fs[0].key == "$ref" then fs[0].value.Str? && Refers(fs[0].value.s, r, evidence)
      else
        && r.Obj? && |r.fields| == |fs|
        && forall i | 0 <= i < |fs| ::
             fs[i].key == r.fields[i].key && Replaced(fs[i].value, r.fields[i].value, evidence)
    case Arr(items) =>
      && r.Arr? && |r.items| == |items|
      && forall i | 0 <= i < |items| :: Replaced(items[i], r.items[i], evidence)
    case _ => r == v
  }

  /** Resolution succeeds with exactly that value, and fails exactly when there is none. */
  lemma {:induction false} ResolveReplaces(v: Json, r: Json, evidence: seq<ToolEvidence>)
    ensures Resolve(v, evidence) == Some(r) <==> Replaced(v, r, evidence)
    decreases v, 1
  {
    hide Refers, ResolveReference;
    match v
    case Obj(fs) =>
      if IsReference(fs) {
        if fs[0].value.Str? {
          ReferenceNames(fs[0].value.s, r, evidence);
        }
      } else if r.Obj? {
        FieldsReplaced(fs, r.fields, evidence);
      }
    case Arr(items) =>
      if r.Arr? {
        ItemsReplaced(items, r.items, evidence);
      }
    case _ =>
  }

  lemma {:induction false} ItemsReplaced(items: seq<Json>, rs: seq<Json>, evidence: seq<ToolEvidence>)
    ensures ResolveItems(items, evidence) == Some(rs) <==>
            |rs| == |items| && forall i | 0 <= i < |items| :: Replaced(items[i], rs[i], evidence)
    decreases items, 0
  {
    hide Replaced, Resolve;
    if items != [] && rs != [] {
      ResolveReplaces(items[0], rs[0], evidence);
      ItemsReplaced(items[1..], rs[1..], evidence);
      assert rs == [rs[0]] + rs[1..];
      assert forall i | 1 <= i < |items| :: items[i] == items[1..][i - 1];
      assert forall i | 1 <= i < |rs| :: rs[i] == rs[1..][i - 1];
    }
  }

  lemma {:induction false} FieldsReplaced(fs: Fields, rs: Fields, evidence: seq<ToolEvidence>)
    ensures ResolveFields(fs, evidence) == Some(rs) <==>
            |rs| == |fs|
            && forall i | 0 <= i < |fs| ::
                 fs[i].key == rs[i].key && Replaced(fs[i].value, rs[i].value, evidence)
    decreases fs, 0
  {
    hide Replaced, Resolve;
    if fs != [] && rs != [] {
      ResolveReplaces(fs[0].value, rs[0].value, evidence);
      FieldsReplaced(fs[1..], rs[1..], evidence);
      assert rs == [rs[0]] + rs[1..];
      assert forall i | 1 <= i < |fs| :: fs[i] == fs[1..][i - 1];
      assert forall i | 1 <= i < |rs| :: rs[i] == rs[1..][i - 1];
    }
  }
}
