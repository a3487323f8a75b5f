/** Sorting the fields of an object by key, and what it forgets: only their order. */
module JsonOrder {
  import opened Json

  lemma {:induction false} BeforeIsTotal(a: string, b: string)
    ensures Before(a, b) || a == b || Before(b, a)
  {
    if a != "" && b != "" && a[0] == b[0] {
      BeforeIsTotal(a[1..], b[1..]);
      assert a == [a[0]] + a[1..] && b == [b[0]] + b[1..];
    }
  }

  lemma {:induction false} BeforeIsAsymmetric(a: string, b: string)
    requires Before(a, b)
    ensures a != b && !Before(b, a)
  {
    if a != "" && a[0] == b[0] {
      BeforeIsAsymmetric(a[1..], b[1..]);
    }
  }

  lemma {:induction false} BeforeIsTransitive(a: string, b: string, c: string)
    requires Before(a, b) && Before(b, c)
    ensures Before(a, c)
  {
    if a != "" && a[0] == b[0] == c[0] {
      BeforeIsTransitive(a[1..], b[1..], c[1..]);
    }
  }

  lemma {:induction false} InsertFieldSorts(f: Field, fs: Fields)
    requires Sorted(fs)
    requires forall i | 0 <= i < |fs| :: fs[i].key != f.key
    ensures Sorted(InsertField(f, fs))
    ensures forall g :: g in InsertField(f, fs) <==> g == f || g in fs
    ensures |InsertField(f, fs)| == |fs| + 1
  {
    if fs != [] {
      var r := InsertField(f, fs);
      if Before(f.key, fs[0].key) {
        forall i | 1 <= i < |fs| ensures Before(f.key, fs[i].key) {
          BeforeIsTransitive(f.key, fs[0].key, fs[i].key);
        }
      } else {
        BeforeIsTotal(f.key, fs[0].key);
        InsertFieldSorts(f, fs[1..]);
        var tail := InsertField(f, fs[1..]);
        forall j | 0 <= j < |tail| ensures Before(fs[0].key, tail[j].key) {
          assert tail[j] in tail;
        }
        assert r == [fs[0]] + tail;
        assert forall g :: g in fs <==> g == fs[0] || g in fs[1..];
      }
    }
  }

  lemma {:induction false} SortFieldsSorts(fs: Fields)
    requires DistinctKeys(fs)
    ensures Sorted(SortFields(fs))
    ensures forall g :: g in SortFields(fs) <==> g in fs
    ensures |SortFields(fs)| == |fs|
  {
    if fs != [] {
      SortFieldsSorts(fs[1..]);
      var tail := SortFields(fs[1..]);
      forall i | 0 <= i < |tail| ensures tail[i].key != fs[0].key {
        assert tail[i] in fs[1..];
      }
      InsertFieldSorts(fs[0], tail);
      assert forall g :: g in fs <==> g == fs[0] || g in fs[1..];
    }
  }

  /** Two sorted field lists with the same fields are the same list. */
  lemma {:induction false} SortedIsUnique(fs: Fields, gs: Fields)
    requires Sorted(fs) && Sorted(gs)
    requires forall f :: f in fs <==> f in gs
    ensures fs == gs
  {
    assert fs != [] ==> fs[0] in fs;
    assert gs != [] ==> gs[0] in gs;
    if fs != [] && gs != [] {
      assert fs[0] in gs && gs[0] in fs;
      var j :| 0 <= j < |gs| && gs[j] == fs[0];
      var i :| 0 <= i < |fs| && fs[i] == gs[0];
      if j > 0 && i > 0 {
        assert Before(gs[0].key, gs[j].key) && Before(fs[0].key, fs[i].key);
        BeforeIsAsymmetric(fs[0].key, gs[0].key);
      }
      assert fs[0] == gs[0];
      forall f ensures f in fs[1..] <==> f in gs[1..] {
        if f in fs[1..] {
          SortedTail(fs, f);
        }
        if f in gs[1..] {
          SortedTail(gs, f);
        }
      }
      SortedIsUnique(fs[1..], gs[1..]);
    }
  }

  lemma SortedTail(fs: Fields, f: Field)
    requires Sorted(fs) && fs != [] && f in fs[1..]
    ensures f != fs[0] && f in fs
  {
    var i :| 0 <= i < |fs[1..]| && fs[1..][i] == f;
    assert fs[i + 1] == f && Before(fs[0].key, fs[i + 1].key);
    BeforeIsAsymmetric(fs[0].key, fs[i + 1].key);
  }

  lemma SortedIsDistinct(fs: Fields)
    requires Sorted(fs)
    ensures DistinctKeys(fs)
  {
    forall i, j | 0 <= i < j < |fs| ensures fs[i].key != fs[j].key {
      BeforeIsAsymmetric(fs[i].key, fs[j].key);
    }
  }

  lemma {:induction false} NormalizeItemsAt(items: seq<Json>)
    ensures |NormalizeItems(items)| == |items|
    ensures forall i | 0 <= i < |items| :: NormalizeItems(items)[i] == Normalize(items[i])
  {
    if items != [] {
      NormalizeItemsAt(items[1..]);
    }
  }

  lemma {:induction false} NormalizeFieldsAt(fs: Fields)
    ensures |NormalizeFields(fs)| == |fs|
    ensures forall i | 0 <= i < |fs| ::
              NormalizeFields(fs)[i] == Field(fs[i].key, Normalize(fs[i].value))
  {
    if fs != [] {
      NormalizeFieldsAt(fs[1..]);
    }
  }

  /** The normal form decides Python equality: two well-formed values are equal exactly
      when they are the same text-ordered value. */
  lemma {:induction false} SameIffNormalFormsEqual(a: Json, b: Json)
    requires WellFormed(a) && WellFormed(b)
    ensures Same(a, b) <==> Normalize(a) == Normalize(b)
    decreases a
  {
    match (a, b)
    case (Arr(xs), Arr(ys)) =>
      NormalizeItemsAt(xs);
      NormalizeItemsAt(ys);
      if |xs| == |ys| {
        forall i | 0 <= i < |xs| ensures Same(xs[i], ys[i]) <==> Normalize(xs[i]) == Normalize(ys[i]) {
          SameIffNormalFormsEqual(xs[i], ys[i]);
        }
        if Normalize(a) == Normalize(b) {
          assert forall i | 0 <= i < |xs| :: NormalizeItems(xs)[i] == NormalizeItems(ys)[i];
        }
        if Same(a, b) {
          assert NormalizeItems(xs) == NormalizeItems(ys);
        }
      }
    case (Obj(fs), Obj(gs)) =>
      forall f, g | f in fs && g in gs
        ensures Same(f.value, g.value) <==> Normalize(f.value) == Normalize(g.value)
      {
        SameIffNormalFormsEqual(f.value, g.value);
      }
      SameObjects(fs, gs);
    case _ =>
  }

  /** `SameIffNormalFormsEqual` for the values under two objects. */
  ghost predicate ValuesAgree(fs: Fields, gs: Fields) {
    forall f, g | f in fs && g in gs ::
      Same(f.value, g.value) <==> Normalize(f.value) == Normalize(g.value)
  }

  ghost predicate Included(fs: Fields, gs: Fields) {
    |fs| == |gs| && forall i | 0 <= i < |fs| :: fs[i] in gs
  }

  lemma SameObjects(fs: Fields, gs: Fields)
    requires DistinctKeys(fs) && DistinctKeys(gs) && ValuesAgree(fs, gs)
    ensures Same(Obj(fs), Obj(gs)) <==> SortFields(NormalizeFields(fs)) == SortFields(NormalizeFields(gs))
  {
    if Same(Obj(fs), Obj(gs)) {
      SameIsIncluded(fs, gs);
      IncludedSortsAlike(fs, gs);
    }
    if SortFields(NormalizeFields(fs)) == SortFields(NormalizeFields(gs)) {
      SortedAlikeIsIncluded(fs, gs);
      IncludedIsSame(fs, gs);
    }
  }

  lemma SameIsIncluded(fs: Fields, gs: Fields)
    requires ValuesAgree(fs, gs) && Same(Obj(fs), Obj(gs))
    ensures Included(NormalizeFields(fs), NormalizeFields(gs))
  {
    NormalizeFieldsAt(fs);
    NormalizeFieldsAt(gs);
    forall i | 0 <= i < |fs| ensures NormalizeFields(fs)[i] in NormalizeFields(gs) {
      var j :| 0 <= j < |gs| && fs[i].key == gs[j].key && Same(fs[i].value, gs[j].value);
      assert fs[i] in fs && gs[j] in gs;
      assert NormalizeFields(gs)[j] == NormalizeFields(fs)[i];
    }
  }

  lemma IncludedIsSame(fs: Fields, gs: Fields)
    requires ValuesAgree(fs, gs) && Included(NormalizeFields(fs), NormalizeFields(gs))
    ensures Same(Obj(fs), Obj(gs))
  {
    hide SameIn, Normalize, NormalizeFields;
    NormalizeFieldsAt(fs);
    NormalizeFieldsAt(gs);
    forall i: nat | i < |fs| ensures SameIn(fs[i], gs) {
      IncludedIsIn(fs, gs, i);
    }
  }

  lemma IncludedIsIn(fs: Fields, gs: Fields, i: nat)
    requires ValuesAgree(fs, gs) && Included(NormalizeFields(fs), NormalizeFields(gs))
    requires i < |fs|
    ensures SameIn(fs[i], gs)
  {
    hide Same, Normalize, NormalizeFields;
    NormalizeFieldsAt(fs);
    NormalizeFieldsAt(gs);
    var ng := NormalizeFields(gs);
    assert NormalizeFields(fs)[i] in ng;
    var j :| 0 <= j < |ng| && ng[j] == NormalizeFields(fs)[i];
    assert fs[i] in fs && gs[j] in gs;
  }

  lemma IncludedSortsAlike(fs: Fields, gs: Fields)
    requires DistinctKeys(fs) && DistinctKeys(gs)
    requires Included(NormalizeFields(fs), NormalizeFields(gs))
    ensures SortFields(NormalizeFields(fs)) == SortFields(NormalizeFields(gs))
  {
    var nf, ng := NormalizeFields(fs), NormalizeFields(gs);
    NormalizeFieldsDistinct(fs);
    NormalizeFieldsDistinct(gs);
    EqualByCounting(nf, ng);
    SortFieldsSorts(nf);
    SortFieldsSorts(ng);
    SortedIsUnique(SortFields(nf), SortFields(ng));
  }

  lemma SortedAlikeIsIncluded(fs: Fields, gs: Fields)
    requires DistinctKeys(fs) && DistinctKeys(gs)
    requires SortFields(NormalizeFields(fs)) == SortFields(NormalizeFields(gs))
    ensures Included(NormalizeFields(fs), NormalizeFields(gs))
  {
    var nf, ng := NormalizeFields(fs), NormalizeFields(gs);
    NormalizeFieldsDistinct(fs);
    NormalizeFieldsDistinct(gs);
    SortFieldsSorts(nf);
    SortFieldsSorts(ng);
    forall i | 0 <= i < |nf| ensures nf[i] in ng {
      assert nf[i] in nf;
    }
  }

  lemma NormalizeFieldsDistinct(fs: Fields)
    requires DistinctKeys(fs)
    ensures DistinctKeys(NormalizeFields(fs))
  {
    NormalizeFieldsAt(fs);
  }

  /** Among lists of distinct keys and equal length, inclusion is equality of contents. */
  lemma EqualByCounting(fs: Fields, gs: Fields)
    requires DistinctKeys(fs) && DistinctKeys(gs) && |fs| == |gs|
    requires forall i | 0 <= i < |fs| :: fs[i] in gs
    ensures forall f :: f in fs <==> f in gs
  {
    var a := set f | f in fs;
    var b := set g | g in gs;
    DistinctCount(fs, a);
    DistinctCount(gs, b);
    assert a <= b;
    SubsetOfSameSize(a, b);
    assert a == b;
    forall f ensures f in fs <==> f in gs {
      assert f in fs <==> f in a;
      assert f in gs <==> f in b;
    }
  }

  lemma {:induction false} DistinctCount(fs: Fields, s: set<Field>)
    requires DistinctKeys(fs) && s == set f | f in fs
    ensures |s| == |fs|
  {
    if fs != [] {
      var t := set f | f in fs[1..];
      DistinctCount(fs[1..], t);
      assert fs[0] !in fs[1..];
      assert s == t + {fs[0]} by {
        assert forall f :: f in fs <==> f == fs[0] || f in fs[1..];
      }
    }
  }

  lemma SubsetOfSameSize<T>(a: set<T>, b: set<T>)
    requires a <= b && |a| == |b|
    ensures a == b
  {
    assert |b - a| == |b| - |a|;
  }
}
