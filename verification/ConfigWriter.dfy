/**
  Targeted edits to the configuration file: a patch of fields by section, and a list of
  tables replaced row by row. What they promise is said of the file as it is written.
 */
module ConfigWriter {
  import opened Options
  import opened ConfigDocument

  // ---------- Patching sections ----------

  datatype Field = Field(key: string, value: Json)

  /** One section of a patch; none when what is given for it is not an object. */
  datatype Section = Section(path: Path, fields: Option<seq<Field>>)

  function PatchField(e: Entries, f: Field): Option<Entries> {
    if f.value.Null? then Some(e - {f.key})
    else if ToValue(f.value).None? then None
    else Some(e[f.key := Val(ToValue(f.value).value)])
  }

  function PatchFields(e: Entries, fs: seq<Field>): Option<Entries> {
    if fs == [] then Some(e)
    else
      var before := PatchFields(e, fs[..|fs| - 1]);
      if before.None? then None else PatchField(before.value, fs[|fs| - 1])
  }

  function PatchSection(doc: Entries, sec: Section): Option<Entries> {
    if sec.fields.None? then None else EditAt(doc, sec.path, e => PatchFields(e, sec.fields.value))
  }

  function Patched(doc: Entries, patch: seq<Section>): Option<Entries> {
    if patch == [] then Some(doc)
    else
      var before := Patched(doc, patch[..|patch| - 1]);
      if before.None? then None else PatchSection(before.value, patch[|patch| - 1])
  }

  /** What a patched field reads as afterwards. */
  function Expected(f: Field): Option<Item> {
    if f.value.Null? || ToValue(f.value).None? then None else Some(Val(ToValue(f.value).value))
  }

  predicate DistinctKeys(fs: seq<Field>) {
    forall i, j :: 0 <= i < j < |fs| ==> fs[i].key != fs[j].key
  }

  /** A JSON object has each key once. */
  predicate WellFormed(patch: seq<Section>) {
    && (forall i :: 0 <= i < |patch| && patch[i].fields.Some? ==> DistinctKeys(patch[i].fields.value))
    && forall i, j :: 0 <= i < j < |patch| ==> patch[i].path != patch[j].path
  }

  /** At or under a field this section patches. */
  predicate Touches(sec: Section, q: Path) {
    sec.fields.Some? && exists i :: 0 <= i < |sec.fields.value| && IsPrefix(sec.path + [sec.fields.value[i].key], q)
  }

  lemma {:induction false} FieldsPut(e: Entries, fs: seq<Field>, k: string)
    requires PatchFields(e, fs).Some?
    ensures (forall i :: 0 <= i < |fs| ==> fs[i].key != k) ==>
              (k in PatchFields(e, fs).value <==> k in e) && (k in e ==> PatchFields(e, fs).value[k] == e[k])
    ensures DistinctKeys(fs) ==> forall i :: 0 <= i < |fs| && fs[i].key == k ==>
              Get(PatchFields(e, fs).value, [k]) == Expected(fs[i])
  {
    if fs != [] {
      var front := fs[..|fs| - 1];
      FieldsPut(e, front, k);
      assert forall i :: 0 <= i < |front| ==> front[i] == fs[i];
    }
  }

  /** What a section's patch does: each field reads back, and all else is as it was. */
  lemma {:induction false} SectionPuts(doc: Entries, sec: Section, i: nat)
    requires PatchSection(doc, sec).Some? && DistinctKeys(sec.fields.value) && i < |sec.fields.value|
    ensures Get(PatchSection(doc, sec).value, sec.path + [sec.fields.value[i].key]) == Expected(sec.fields.value[i])
  {
    var fs := sec.fields.value;
    var k := fs[i].key;
    EditPuts(doc, sec.path, e => PatchFields(e, fs), [k]);
    FieldsPut(TableAt(doc, sec.path).value, fs, k);
  }

  lemma {:induction false} SectionFrames(doc: Entries, sec: Section, q: Path)
    requires PatchSection(doc, sec).Some? && q != [] && !Touches(sec, q)
    ensures Leaf(PatchSection(doc, sec).value, q) == Leaf(doc, q)
    ensures !IsPrefix(q, sec.path) ==> Get(PatchSection(doc, sec).value, q) == Get(doc, q)
    ensures Anchor(PatchSection(doc, sec).value, q) <==> Anchor(doc, q)
  {
    var fs := sec.fields.value;
    if |q| > |sec.path| && IsPrefix(sec.path, q) {
      var at, k := TableAt(doc, sec.path), q[|sec.path|];
      EditSucceedsIff(doc, sec.path, e => PatchFields(e, fs));
      assert q[..|sec.path| + 1] == sec.path + [k];
      assert forall i :: 0 <= i < |fs| ==> fs[i].key != k;
      FieldsPut(at.value, fs, k);
      EditLeavesKey(doc, sec.path, e => PatchFields(e, fs), q);
    } else {
      EditFrames(doc, sec.path, e => PatchFields(e, fs), q);
    }
  }

  // ---------- What the file says afterwards ----------

  /** The path of a section's n-th field. */
  function FieldPath(sec: Section, n: nat): Path
    requires sec.fields.Some? && n < |sec.fields.value|
  {
    sec.path + [sec.fields.value[n].key]
  }

  predicate IsField(patch: seq<Section>, i: nat, n: nat) {
    i < |patch| && patch[i].fields.Some? && n < |patch[i].fields.value|
  }

  /** The field is given a value, as opposed to being taken out. */
  predicate Given(patch: seq<Section>, i: nat, n: nat) {
    IsField(patch, i, n) && !patch[i].fields.value[n].value.Null?
  }

  /** No later section patches at or above the path. */
  predicate UntouchedFrom(patch: seq<Section>, i: nat, q: Path) {
    forall j :: i <= j < |patch| ==> !Touches(patch[j], q)
  }

  /** A field that is given a value and that no later section patches above. */
  predicate Survives(patch: seq<Section>, i: nat, n: nat) {
    Given(patch, i, n) && UntouchedFrom(patch, i + 1, FieldPath(patch[i], n))
  }

  lemma {:induction false} SnocInjective(p: Path, k: string, p': Path, k': string)
    ensures p + [k] == p' + [k'] ==> p == p' && k == k'
  {
    assert (p + [k])[..|p|] == p && (p' + [k'])[..|p'|] == p';
  }

  lemma {:induction false} OneFieldPerPath(patch: seq<Section>, i: nat, n: nat, j: nat, m: nat)
    requires WellFormed(patch) && IsField(patch, i, n) && IsField(patch, j, m) && (i != j || n != m)
    ensures FieldPath(patch[i], n) != FieldPath(patch[j], m)
  {
    SnocInjective(patch[i].path, patch[i].fields.value[n].key, patch[j].path, patch[j].fields.value[m].key);
  }

  /** Nothing is found below a value, or below nothing. */
  lemma {:induction false} NothingBelow(t: Entries, p: Path, q: Path)
    requires p != [] && IsPrefix(p, q) && |p| < |q| && (Get(t, p).None? || !Get(t, p).value.Table?)
    ensures Get(t, q) == None
    decreases |p|
  {
    if |p| > 1 && q[0] in t && t[q[0]].Table? {
      assert q[..|p|][0] == p[0] && q[1..][..|p| - 1] == q[..|p|][1..];
      NothingBelow(t[q[0]].entries, p[1..], q[1..]);
    } else {
      assert q[..|p|][0] == p[0];
    }
  }

  /** A section that patches above a path, and not at it, leaves nothing there. */
  lemma {:induction false} TouchedIsGone(doc: Entries, sec: Section, p: Path)
    requires PatchSection(doc, sec).Some? && DistinctKeys(sec.fields.value) && Touches(sec, p)
    requires forall n :: 0 <= n < |sec.fields.value| ==> FieldPath(sec, n) != p
    ensures Get(PatchSection(doc, sec).value, p) == None
  {
    var n :| 0 <= n < |sec.fields.value| && IsPrefix(sec.path + [sec.fields.value[n].key], p);
    var above := FieldPath(sec, n);
    SectionPuts(doc, sec, n);
    assert p[..|p|] == p;
    NothingBelow(PatchSection(doc, sec).value, above, p);
  }

  lemma {:induction false} PrefixSucceeds(doc: Entries, patch: seq<Section>, m: nat)
    requires Patched(doc, patch).Some? && m <= |patch|
    ensures Patched(doc, patch[..m]).Some?
    ensures m > 0 ==> && Patched(doc, patch[..m - 1]).Some?
                      && Patched(doc, patch[..m]) == PatchSection(Patched(doc, patch[..m - 1]).value, patch[m - 1])
    decreases |patch| - m
  {
    if m == |patch| {
      assert patch[..m] == patch;
    } else {
      PrefixSucceeds(doc, patch, m + 1);
    }
    if m > 0 {
      assert patch[..m][..m - 1] == patch[..m - 1];
    }
  }

  /** From the last section that patches at or above a path, its value, list or anchor stays to the end. */
  lemma {:induction false} UntouchedStays(doc: Entries, patch: seq<Section>, i: nat, q: Path)
    requires Patched(doc, patch).Some? && i <= |patch| && q != [] && UntouchedFrom(patch, i, q)
    ensures Patched(doc, patch[..i]).Some?
    ensures Leaf(Patched(doc, patch).value, q) == Leaf(Patched(doc, patch[..i]).value, q)
    ensures Anchor(Patched(doc, patch).value, q) <==> Anchor(Patched(doc, patch[..i]).value, q)
    decreases |patch| - i
  {
    if i == |patch| {
      assert patch[..i] == patch;
    } else {
      PrefixSucceeds(doc, patch, i + 1);
      SectionFrames(Patched(doc, patch[..i]).value, patch[i], q);
      UntouchedStays(doc, patch, i + 1, q);
    }
  }

  lemma {:induction false} LastToucher(patch: seq<Section>, i: nat, q: Path) returns (j: nat)
    requires i < |patch| && Touches(patch[i], q)
    ensures i <= j < |patch| && Touches(patch[j], q) && UntouchedFrom(patch, j + 1, q)
  {
    j := |patch| - 1;
    while !Touches(patch[j], q)
      invariant i <= j < |patch| && UntouchedFrom(patch, j + 1, q)
      decreases j
    {
      j := j - 1;
    }
  }

  /** Right after its section a field is as it was given. */
  lemma {:induction false} FieldIsPut(doc: Entries, patch: seq<Section>, i: nat, n: nat)
    requires WellFormed(patch) && Patched(doc, patch).Some? && IsField(patch, i, n)
    ensures Patched(doc, patch[..i + 1]).Some?
    ensures Get(Patched(doc, patch[..i + 1]).value, FieldPath(patch[i], n)) == Expected(patch[i].fields.value[n])
    ensures Given(patch, i, n) <==> Expected(patch[i].fields.value[n]).Some?
  {
    PrefixSucceeds(doc, patch, i + 1);
    var mid := Patched(doc, patch[..i]).value;
    SectionPuts(mid, patch[i], n);
    FieldIsValid(TableAt(mid, patch[i].path), patch[i], mid, n);
  }

  /** And a path that the last section to touch it has no field at is left empty. */
  lemma {:induction false} TouchedIsEmptied(doc: Entries, patch: seq<Section>, j: nat, q: Path)
    requires WellFormed(patch) && Patched(doc, patch).Some? && j < |patch| && Touches(patch[j], q)
    requires forall n: nat :: IsField(patch, j, n) ==> FieldPath(patch[j], n) != q
    ensures Patched(doc, patch[..j + 1]).Some? && Get(Patched(doc, patch[..j + 1]).value, q) == None
  {
    PrefixSucceeds(doc, patch, j + 1);
    forall n | 0 <= n < |patch[j].fields.value| ensures FieldPath(patch[j], n) != q {
      assert IsField(patch, j, n);
    }
    TouchedIsGone(Patched(doc, patch[..j]).value, patch[j], q);
  }

  lemma {:induction false} SurvivorStays(doc: Entries, patch: seq<Section>, i: nat, n: nat)
    requires WellFormed(patch) && Patched(doc, patch).Some? && Survives(patch, i, n)
    ensures Get(Patched(doc, patch).value, FieldPath(patch[i], n)) == Expected(patch[i].fields.value[n])
    ensures Expected(patch[i].fields.value[n]).Some?
  {
    FieldIsPut(doc, patch, i, n);
    UntouchedStays(doc, patch, i + 1, FieldPath(patch[i], n));
  }

  lemma {:induction false} OverpatchedIsNoLeaf(doc: Entries, patch: seq<Section>, i: nat, n: nat, k: nat)
    requires WellFormed(patch) && Patched(doc, patch).Some? && IsField(patch, i, n)
    requires i < k < |patch| && Touches(patch[k], FieldPath(patch[i], n))
    ensures Leaf(Patched(doc, patch).value, FieldPath(patch[i], n)) == None
  {
    var p := FieldPath(patch[i], n);
    var j := LastToucher(patch, k, p);
    forall m: nat | IsField(patch, j, m) ensures FieldPath(patch[j], m) != p {
      OneFieldPerPath(patch, i, n, j, m);
    }
    TouchedIsEmptied(doc, patch, j, p);
    UntouchedStays(doc, patch, j + 1, p);
  }

  /** A field that is given a value is in the file as given exactly when no later section patches above it. */
  lemma {:induction false} GivenFieldReadsBackIff(doc: Entries, patch: seq<Section>, i: nat, n: nat)
    requires WellFormed(patch) && Patched(doc, patch).Some? && Given(patch, i, n)
    ensures Get(Written(Patched(doc, patch).value), FieldPath(patch[i], n)) == Expected(patch[i].fields.value[n]) <==>
            Survives(patch, i, n)
  {
    var p := FieldPath(patch[i], n);
    FieldIsPut(doc, patch, i, n);
    WrittenLeaf(Patched(doc, patch).value, p);
    if Survives(patch, i, n) {
      SurvivorStays(doc, patch, i, n);
    } else {
      var k :| i + 1 <= k < |patch| && Touches(patch[k], p);
      OverpatchedIsNoLeaf(doc, patch, i, n, k);
    }
  }

  /** Of the paths a patch touches, the anchors afterwards are the fields with a value that survive. */
  lemma {:induction false} TouchedAnchorIff(doc: Entries, patch: seq<Section>, i: nat, q: Path)
    requires WellFormed(patch) && Patched(doc, patch).Some? && i < |patch| && Touches(patch[i], q) && q != []
    ensures Anchor(Patched(doc, patch).value, q) <==> SurvivorAt(patch, q)
  {
    var j := LastToucher(patch, i, q);
    UntouchedStays(doc, patch, j + 1, q);
    if n: nat :| IsField(patch, j, n) && FieldPath(patch[j], n) == q {
      FieldIsPut(doc, patch, j, n);
      assert Survives(patch, j, n) <==> Given(patch, j, n);
    } else {
      TouchedIsEmptied(doc, patch, j, q);
    }
    if l: nat, m: nat :| Survives(patch, l, m) && FieldPath(patch[l], m) == q {
      SurvivorStays(doc, patch, l, m);
    }
  }

  ghost predicate SurvivorAt(patch: seq<Section>, q: Path) {
    exists l: nat, m: nat :: Survives(patch, l, m) && FieldPath(patch[l], m) == q
  }

  ghost predicate SurvivorBelow(patch: seq<Section>, q: Path) {
    exists l: nat, m: nat :: Survives(patch, l, m) && IsPrefix(q, FieldPath(patch[l], m))
  }

  /** A field that is taken out is absent from the file exactly when no surviving value is patched at or below it. */
  lemma {:induction false} RemovedFieldIsAbsentIff(doc: Entries, patch: seq<Section>, i: nat, n: nat)
    requires WellFormed(patch) && Patched(doc, patch).Some? && IsField(patch, i, n) && !Given(patch, i, n)
    ensures Get(Written(Patched(doc, patch).value), FieldPath(patch[i], n)) == None <==>
            !SurvivorBelow(patch, FieldPath(patch[i], n))
  {
    var p, after := FieldPath(patch[i], n), Patched(doc, patch).value;
    WrittenIff(after, p);
    if r :| r != [] && IsPrefix(p, r) && Anchor(after, r) {
      assert Touches(patch[i], r);
      TouchedAnchorIff(doc, patch, i, r);
      var l: nat, m: nat :| Survives(patch, l, m) && FieldPath(patch[l], m) == r;
      assert SurvivorBelow(patch, p);
    }
    if l: nat, m: nat :| Survives(patch, l, m) && IsPrefix(p, FieldPath(patch[l], m)) {
      var r := FieldPath(patch[l], m);
      assert Touches(patch[i], r);
      TouchedAnchorIff(doc, patch, i, r);
      assert SurvivorAt(patch, r);
    }
  }

  ghost predicate ReadsBack(file: Entries, patch: seq<Section>) {
    forall i: nat, n: nat ::
      IsField(patch, i, n) ==> Get(file, FieldPath(patch[i], n)) == Expected(patch[i].fields.value[n])
  }

  /** No patched field lies above one that is given a value. */
  ghost predicate NothingAboveGiven(patch: seq<Section>) {
    forall i: nat, n: nat, l: nat, m: nat ::
      IsField(patch, i, n) && Given(patch, l, m) && i != l ==> !Above(patch, i, n, l, m)
  }

  predicate Above(patch: seq<Section>, i: nat, n: nat, l: nat, m: nat)
    requires IsField(patch, i, n) && IsField(patch, l, m)
  {
    IsPrefix(FieldPath(patch[i], n), FieldPath(patch[l], m))
  }

  lemma {:induction false} NothingAboveReadsBack(doc: Entries, patch: seq<Section>, i: nat, n: nat)
    requires WellFormed(patch) && Patched(doc, patch).Some? && IsField(patch, i, n) && NothingAboveGiven(patch)
    ensures Get(Written(Patched(doc, patch).value), FieldPath(patch[i], n)) == Expected(patch[i].fields.value[n])
  {
    var p := FieldPath(patch[i], n);
    FieldIsPut(doc, patch, i, n);
    if Given(patch, i, n) {
      forall j: nat, k: nat | i + 1 <= j < |patch| && IsField(patch, j, k)
        ensures !IsPrefix(patch[j].path + [patch[j].fields.value[k].key], p) {
        assert !Above(patch, j, k, i, n);
      }
      GivenFieldReadsBackIff(doc, patch, i, n);
    } else {
      RemovedFieldIsAbsentIff(doc, patch, i, n);
      forall l: nat, m: nat | Survives(patch, l, m) ensures !IsPrefix(p, FieldPath(patch[l], m)) {
        if l == i {
          OneFieldPerPath(patch, i, n, l, m);
        } else {
          assert !Above(patch, i, n, l, m);
        }
      }
    }
  }

  /** One that lies above a given field undoes it or is undone by it. */
  lemma {:induction false} AboveGivenIsUndone(doc: Entries, patch: seq<Section>, i: nat, n: nat, l: nat, m: nat)
    requires WellFormed(patch) && Patched(doc, patch).Some? && IsField(patch, i, n) && Given(patch, l, m) && i != l
    requires Above(patch, i, n, l, m)
    ensures !ReadsBack(Written(Patched(doc, patch).value), patch)
  {
    var p, q, after := FieldPath(patch[i], n), FieldPath(patch[l], m), Patched(doc, patch).value;
    GivenFieldReadsBackIff(doc, patch, l, m);
    FieldIsPut(doc, patch, i, n);
    if !Survives(patch, l, m) {
      assert IsField(patch, l, m);
    } else if Given(patch, i, n) {
      GivenFieldReadsBackIff(doc, patch, i, n);
      SurvivorStays(doc, patch, l, m);
      OneFieldPerPath(patch, i, n, l, m);
      assert q[..|q|] == q;
      if Survives(patch, i, n) {
        SurvivorStays(doc, patch, i, n);
        NothingBelow(after, p, q);
      }
    } else {
      RemovedFieldIsAbsentIff(doc, patch, i, n);
      assert SurvivorBelow(patch, p);
    }
  }

  /**
    After a successful patch the file has every field as it was given, its value or absent
    for null, exactly when no patched field lies above one that is given a value.
   */
  lemma {:induction false} PatchReadsBackIff(doc: Entries, patch: seq<Section>)
    requires WellFormed(patch) && Patched(doc, patch).Some?
    ensures ReadsBack(Written(Patched(doc, patch).value), patch) <==> NothingAboveGiven(patch)
  {
    if NothingAboveGiven(patch) {
      forall i: nat, n: nat | IsField(patch, i, n)
        ensures Get(Written(Patched(doc, patch).value), FieldPath(patch[i], n)) == Expected(patch[i].fields.value[n]) {
        NothingAboveReadsBack(doc, patch, i, n);
      }
    } else {
      var i: nat, n: nat, l: nat, m: nat :|
        IsField(patch, i, n) && Given(patch, l, m) && i != l && Above(patch, i, n, l, m);
      AboveGivenIsUndone(doc, patch, i, n, l, m);
    }
  }

  lemma {:induction false} FieldIsValid(at: Option<Entries>, sec: Section, doc: Entries, n: nat)
    requires PatchSection(doc, sec).Some? && n < |sec.fields.value| && at == TableAt(doc, sec.path)
    ensures sec.fields.value[n].value.Null? || ToValue(sec.fields.value[n].value).Some?
  {
    EditSucceedsIff(doc, sec.path, e => PatchFields(e, sec.fields.value));
    FieldsAreValid(at.value, sec.fields.value, n);
  }

  lemma {:induction false} FieldsAreValid(e: Entries, fs: seq<Field>, n: nat)
    requires PatchFields(e, fs).Some? && n < |fs|
    ensures fs[n].value.Null? || ToValue(fs[n].value).Some?
  {
    if n < |fs| - 1 {
      FieldsAreValid(e, fs[..|fs| - 1], n);
    }
  }

  /** Every value and every list of tables not at or under a patched field is in the file as it was. */
  lemma {:induction false} PatchFrames(doc: Entries, patch: seq<Section>, q: Path)
    requires Patched(doc, patch).Some? && q != [] && UntouchedFrom(patch, 0, q)
    ensures Leaf(Written(Patched(doc, patch).value), q) == Leaf(Written(doc), q)
  {
    UntouchedStays(doc, patch, 0, q);
    assert patch[..0] == [];
    WrittenLeaf(Patched(doc, patch).value, q);
    WrittenLeaf(doc, q);
  }

  ghost predicate UntouchedAnchorBelow(doc: Entries, patch: seq<Section>, q: Path) {
    exists r :: r != [] && IsPrefix(q, r) && Anchor(doc, r) && UntouchedFrom(patch, 0, r)
  }

  /**
    What is in the file at any path after a patch: something exactly when a value, list or
    headed table at or below it was there before and is not patched at or above, or a
    value that survives is patched there. So a table goes away with all it held, if it was
    there only for that.
   */
  lemma {:induction false} PresentAfterPatchIff(doc: Entries, patch: seq<Section>, q: Path)
    requires WellFormed(patch) && Patched(doc, patch).Some? && q != []
    ensures Get(Written(Patched(doc, patch).value), q).Some? <==>
            UntouchedAnchorBelow(doc, patch, q) || SurvivorBelow(patch, q)
  {
    var after := Patched(doc, patch).value;
    WrittenIff(after, q);
    assert patch[..0] == [];
    if r :| r != [] && IsPrefix(q, r) && Anchor(after, r) {
      if i :| 0 <= i < |patch| && Touches(patch[i], r) {
        TouchedAnchorIff(doc, patch, i, r);
      } else {
        UntouchedStays(doc, patch, 0, r);
      }
    }
    if r :| r != [] && IsPrefix(q, r) && Anchor(doc, r) && UntouchedFrom(patch, 0, r) {
      UntouchedStays(doc, patch, 0, r);
      assert Anchor(after, r);
    }
    if l: nat, m: nat :| Survives(patch, l, m) && IsPrefix(q, FieldPath(patch[l], m)) {
      SurvivorStays(doc, patch, l, m);
      assert Anchor(after, FieldPath(patch[l], m));
    }
  }

  /** A removed field can come back as a table: `a.b` taken out, and then patched into. */
  lemma {:induction false} RemovedFieldCanComeBack()
    ensures var patch := [Section(["a"], Some([Field("b", Null)])),
                          Section(["a", "b"], Some([Field("c", JBool(true))]))];
            && WellFormed(patch) && Patched(map[], patch).Some?
            && Get(Written(Patched(map[], patch).value), ["a", "b"]).Some?
  {
    var patch := [Section(["a"], Some([Field("b", Null)])), Section(["a", "b"], Some([Field("c", JBool(true))]))];
    assert patch[..1] == [patch[0]] && patch[..0] == [];
    assert Patched(map[], patch).Some?;
    assert Survives(patch, 1, 0);
    assert FieldPath(patch[1], 0)[..2] == ["a", "b"];
    PresentAfterPatchIff(map[], patch, ["a", "b"]);
  }

  /** A table that a header `[a.b]` implied goes from the file with the table under it. */
  lemma {:induction false} ImpliedTableGoesToo(x: Value)
    ensures var doc := map["a" := Table(map["b" := Table(map["x" := Val(x)], false)], true)];
            var patch := [Section(["a"], Some([Field("b", Null)]))];
            && Get(Written(doc), ["a"]).Some?
            && Patched(doc, patch).Some? && Get(Written(Patched(doc, patch).value), ["a"]) == None
  {
    var doc := map["a" := Table(map["b" := Table(map["x" := Val(x)], false)], true)];
    var patch := [Section(["a"], Some([Field("b", Null)]))];
    var fs, inner := patch[0].fields.value, doc["a"].entries;
    assert patch[..0] == [] && fs[..0] == [] && ["a"][1..] == [];
    assert TableAt(doc, ["a"]) == Some(inner);
    assert PatchFields(inner, fs).Some?;
    EditSucceedsIff(doc, ["a"], e => PatchFields(e, fs));
    assert "b" in inner && Shown(inner["b"]);
    forall r | r != [] && IsPrefix(["a"], r) && Anchor(doc, r) ensures Touches(patch[0], r) {
      assert r[..1][0] == "a";
      assert |r| > 1 && Get(doc, r) == Get(inner, r[1..]);
      assert r[1..][0] in inner && inner.Keys == {"b"};
      assert IsPrefix(patch[0].path + [fs[0].key], r);
    }
    PresentAfterPatchIff(doc, patch, ["a"]);
  }

  method ApplyFields(e: Entries, fs: seq<Field>) returns (r: Option<Entries>)
    ensures r == PatchFields(e, fs)
  {
    var table := e;
    for i := 0 to |fs|
      invariant PatchFields(e, fs[..i]) == Some(table)
    {
      assert fs[..i + 1][..i] == fs[..i];
      if fs[i].value.Null? {
        table := table - {fs[i].key};
      } else {
        var item := ToValue(fs[i].value);
        if item.None? {
          PatchFieldsFails(e, fs, i);
          return None;
        }
        table := table[fs[i].key := Val(item.value)];
      }
    }
    assert fs[..|fs|] == fs;
    return Some(table);
  }

  lemma {:induction false} PatchFieldsFails(e: Entries, fs: seq<Field>, i: nat)
    requires i < |fs| && PatchFields(e, fs[..i + 1]).None?
    ensures PatchFields(e, fs).None?
    decreases |fs|
  {
    if i == |fs| - 1 {
      assert fs[..i + 1] == fs;
    } else {
      assert fs[..|fs| - 1][..i + 1] == fs[..i + 1];
      PatchFieldsFails(e, fs[..|fs| - 1], i);
    }
  }

  lemma {:induction false} PatchFails(doc: Entries, patch: seq<Section>, i: nat)
    requires i < |patch| && Patched(doc, patch[..i + 1]).None?
    ensures Patched(doc, patch).None?
    decreases |patch|
  {
    if i == |patch| - 1 {
      assert patch[..i + 1] == patch;
    } else {
      assert patch[..|patch| - 1][..i + 1] == patch[..i + 1];
      PatchFails(doc, patch[..|patch| - 1], i);
    }
  }

  /** A whole patch: one section after the other, and an error in any leaves the file as it was. */
  method ApplySectionPatch(doc: Entries, patch: seq<Section>) returns (r: Option<Entries>)
    ensures r == Patched(doc, patch)
  {
    var edited := doc;
    for i := 0 to |patch|
      invariant Patched(doc, patch[..i]) == Some(edited)
    {
      assert patch[..i + 1][..i] == patch[..i];
      var next := PatchSection(edited, patch[i]);
      if next.None? {
        PatchFails(doc, patch, i);
        return None;
      }
      edited := next.value;
    }
    assert patch[..|patch|] == patch;
    return Some(edited);
  }

  // ---------- Replacing a list of tables ----------

  type Obj = map<string, Json>

  predicate Writable(obj: Obj) {
    forall k :: k in obj ==> ToValue(obj[k]).Some?
  }

  /** A whole number written over a float stays a float. */
  function Coerced(prior: Option<Item>, v: Value): Value {
    if prior.Some? && prior.value.Val? && prior.value.v.Float? && v.Int? then Float(v.i as real) else v
  }

  function NewRow(obj: Obj): Entries
    requires Writable(obj)
  {
    map k | k in obj :: Val(ToValue(obj[k]).value)
  }

  /** An existing row made to say obj: values it no longer has go, tables under other keys stay. */
  function UpdatedRow(row: Entries, obj: Obj): Entries
    requires Writable(obj)
  {
    map k | k in row.Keys + obj.Keys && (k in obj || !row[k].Val?)
      :: if k in obj then Val(Coerced(Entry(row, k), ToValue(obj[k]).value)) else row[k]
  }

  function NewRows(rows: seq<Entries>, items: seq<Obj>): seq<Entries>
    requires forall i :: 0 <= i < |items| ==> Writable(items[i])
  {
    seq(|items|, i requires 0 <= i < |items| => if i < |rows| then UpdatedRow(rows[i], items[i]) else NewRow(items[i]))
  }

  /** Every item is an object whose fields the file can hold. */
  predicate AllRows(items: seq<Json>) {
    forall i :: 0 <= i < |items| ==> items[i].JObject? && Writable(items[i].fields)
  }

  function Objects(items: seq<Json>): (objs: seq<Obj>)
    requires AllRows(items)
    ensures |objs| == |items| && forall i :: 0 <= i < |items| ==> objs[i] == items[i].fields && Writable(objs[i])
  {
    seq(|items|, i requires 0 <= i < |items| => items[i].fields)
  }

  function ReplaceRows(e: Entries, leaf: string, items: seq<Json>): Option<Entries> {
    if leaf == "" || !AllRows(items) then None
    else
      var rows := if leaf in e && e[leaf].Rows? then e[leaf].rows else [];
      Some(e[leaf := Rows(NewRows(rows, Objects(items)))])
  }

  function Replaced(doc: Entries, path: Path, items: seq<Json>): Option<Entries>
    requires path != []
  {
    EditAt(doc, path[..|path| - 1], e => ReplaceRows(e, path[|path| - 1], items))
  }

  function RowsAt(doc: Entries, path: Path): seq<Entries>
    requires path != []
  {
    var item := Get(doc, path);
    if item.Some? && item.value.Rows? then item.value.rows else []
  }

  /** The value an item's field is stored as: its own, or the same number as a float where a float was. */
  predicate Holds(row: Entries, k: string, j: Json) {
    k in row && row[k].Val? && ToValue(j).Some? &&
    (row[k].v == ToValue(j).value || (ToValue(j).value.Int? && row[k].v == Float(ToValue(j).value.i as real)))
  }

  /** The row says what the item says; what else it holds are tables the row had already. */
  predicate Says(row: Entries, item: Obj, was: Option<Entries>) {
    && (forall k :: k in item ==> Holds(row, k, item[k]))
    && (forall k :: k in row && k !in item ==> !row[k].Val? && was.Some? && k in was.value && was.value[k] == row[k])
    && (forall k :: k in item && row[k] != Val(ToValue(item[k]).value) ==>
                      was.Some? && k in was.value && was.value[k].Val? && was.value[k].v.Float?)
    && (was.Some? ==> forall k :: k in was.value && !was.value[k].Val? && k !in item ==>
              k in row && row[k] == was.value[k])
  }

  lemma RowSays(row: Entries, item: Obj)
    requires Writable(item)
    ensures Says(UpdatedRow(row, item), item, Some(row)) && Says(NewRow(item), item, None)
  {
  }

  lemma {:induction false} ReplacedGives(doc: Entries, path: Path, items: seq<Json>)
    requires path != [] && Replaced(doc, path, items).Some?
    ensures AllRows(items)
    ensures Get(Replaced(doc, path, items).value, path) == Some(Rows(NewRows(RowsAt(doc, path), Objects(items))))
  {
    var parent, leaf := path[..|path| - 1], path[|path| - 1];
    var edit := e => ReplaceRows(e, leaf, items);
    assert path == parent + [leaf];
    EditPuts(doc, parent, edit, [leaf]);
    var at := TableAt(doc, parent).value;
    assert edit(at) == ReplaceRows(at, leaf, items);
    assert Get(doc, path) == Entry(at, leaf);
  }

  /** The list has one row for each item, in order, and each row says what its item says. */
  lemma {:induction false} RowsSayItems(doc: Entries, path: Path, items: seq<Json>)
    requires path != [] && Replaced(doc, path, items).Some?
    ensures var was, rows := RowsAt(doc, path), RowsAt(Written(Replaced(doc, path, items).value), path);
            && |rows| == |items|
            && AllRows(items)
            && forall i :: 0 <= i < |items| ==> Says(rows[i], items[i].fields, if i < |was| then Some(was[i]) else None)
  {
    ReplacedGives(doc, path, items);
    WrittenLeaf(Replaced(doc, path, items).value, path);
    var was := RowsAt(doc, path);
    forall i | 0 <= i < |items|
      ensures Says(NewRows(was, Objects(items))[i], items[i].fields, if i < |was| then Some(was[i]) else None) {
      RowSays(if i < |was| then was[i] else map[], items[i].fields);
    }
  }

  lemma {:induction false} ReplacedStays(doc: Entries, path: Path, items: seq<Json>, q: Path)
    requires path != [] && q != [] && Replaced(doc, path, items).Some? && !IsPrefix(path, q)
    ensures Leaf(Replaced(doc, path, items).value, q) == Leaf(doc, q)
    ensures Anchor(Replaced(doc, path, items).value, q) <==> Anchor(doc, q)
  {
    var parent, leaf := path[..|path| - 1], path[|path| - 1];
    var edit := e => ReplaceRows(e, leaf, items);
    if |q| > |parent| && IsPrefix(parent, q) {
      assert q[..|path|] == parent + [q[|parent|]] && path == parent + [leaf];
      EditSucceedsIff(doc, parent, edit);
      EditLeavesKey(doc, parent, edit, q);
    } else {
      EditFrames(doc, parent, edit, q);
    }
  }

  /** Off the list's own path every value and every other list is in the file as it was. */
  lemma {:induction false} ReplacedFrames(doc: Entries, path: Path, items: seq<Json>, q: Path)
    requires path != [] && q != [] && Replaced(doc, path, items).Some? && !IsPrefix(path, q)
    ensures Leaf(Written(Replaced(doc, path, items).value), q) == Leaf(Written(doc), q)
  {
    ReplacedStays(doc, path, items, q);
    WrittenLeaf(doc, q);
    WrittenLeaf(Replaced(doc, path, items).value, q);
  }

  ghost predicate AnchorBesides(doc: Entries, path: Path, q: Path) {
    exists r :: r != [] && IsPrefix(q, r) && !IsPrefix(path, r) && Anchor(doc, r)
  }

  /** What else is in the file: all that is there for more than the list, and the list's own path if it has rows. */
  lemma {:induction false} PresentAfterReplaceIff(doc: Entries, path: Path, items: seq<Json>, q: Path)
    requires path != [] && q != [] && Replaced(doc, path, items).Some?
    ensures Get(Written(Replaced(doc, path, items).value), q).Some? <==>
            AnchorBesides(doc, path, q) || (items != [] && IsPrefix(q, path))
  {
    var after := Replaced(doc, path, items).value;
    WrittenIff(after, q);
    ReplacedGives(doc, path, items);
    if r :| r != [] && IsPrefix(q, r) && Anchor(after, r) {
      if !IsPrefix(path, r) {
        ReplacedStays(doc, path, items, r);
      } else if |r| > |path| {
        NothingBelow(after, path, r);
      } else {
        assert r[..|path|] == r;
      }
    }
    if r :| r != [] && IsPrefix(q, r) && !IsPrefix(path, r) && Anchor(doc, r) {
      ReplacedStays(doc, path, items, r);
    }
    if items != [] && IsPrefix(q, path) {
      assert Anchor(after, path);
    }
  }

  lemma {:induction false} UpdateTwice(row: Entries, item: Obj)
    requires Writable(item)
    ensures UpdatedRow(UpdatedRow(row, item), item) == UpdatedRow(row, item)
  {
  }

  lemma {:induction false} UpdateNewRow(item: Obj)
    requires Writable(item)
    ensures UpdatedRow(NewRow(item), item) == NewRow(item)
  {
  }

  lemma {:induction false} RowsTwice(rows: seq<Entries>, items: seq<Obj>)
    requires forall i :: 0 <= i < |items| ==> Writable(items[i])
    ensures NewRows(NewRows(rows, items), items) == NewRows(rows, items)
  {
    forall i | 0 <= i < |items| ensures NewRows(NewRows(rows, items), items)[i] == NewRows(rows, items)[i] {
      if i < |rows| { UpdateTwice(rows[i], items[i]); } else { UpdateNewRow(items[i]); }
    }
  }

  lemma {:induction false} EditTwice(t: Entries, path: Path, edit: Entries -> Option<Entries>)
    requires EditAt(t, path, edit).Some?
    requires forall e :: edit(e).Some? ==> edit(edit(e).value) == edit(e)
    ensures EditAt(EditAt(t, path, edit).value, path, edit) == EditAt(t, path, edit)
    decreases |path|
  {
    if path == [] {
      assert edit(t).Some?;
    } else {
      EditTwice(if path[0] in t then t[path[0]].entries else map[], path[1..], edit);
      var t' := EditAt(t, path, edit).value;
      assert t'[path[0] := t'[path[0]]] == t';
    }
  }

  lemma {:induction false} ReplaceRowsTwice(e: Entries, leaf: string, items: seq<Json>)
    requires ReplaceRows(e, leaf, items).Some?
    ensures ReplaceRows(ReplaceRows(e, leaf, items).value, leaf, items) == ReplaceRows(e, leaf, items)
  {
    var rows := if leaf in e && e[leaf].Rows? then e[leaf].rows else [];
    RowsTwice(rows, Objects(items));
    var e' := ReplaceRows(e, leaf, items).value;
    assert e'[leaf].rows == NewRows(rows, Objects(items));
    assert e'[leaf := e'[leaf]] == e';
  }

  /** Writing the same items again changes nothing. */
  lemma {:induction false} ReplaceIsIdempotent(doc: Entries, path: Path, items: seq<Json>)
    requires path != [] && Replaced(doc, path, items).Some?
    ensures Replaced(Replaced(doc, path, items).value, path, items) == Replaced(doc, path, items)
  {
    var parent, leaf := path[..|path| - 1], path[|path| - 1];
    var edit := e => ReplaceRows(e, leaf, items);
    forall e: Entries | edit(e).Some? ensures edit(edit(e).value) == edit(e) {
      ReplaceRowsTwice(e, leaf, items);
    }
    EditTwice(doc, parent, edit);
  }

  method DropGone(row: Entries, obj: Obj) returns (tbl: Entries)
    ensures tbl == map k | k in row && (k in obj || !row[k].Val?) :: row[k]
  {
    tbl := row;
    var gone := set k | k in row && row[k].Val? && k !in obj;
    while gone != {}
      invariant forall k :: k in gone ==> k in row && row[k].Val? && k !in obj
      invariant forall k :: k in tbl <==> k in row && (k in obj || !row[k].Val? || k in gone)
      invariant forall k :: k in tbl ==> tbl[k] == row[k]
      decreases gone
    {
      var k :| k in gone;
      tbl := tbl - {k};
      gone := gone - {k};
    }
  }

  lemma {:induction false} RowIsUpdated(row: Entries, obj: Obj, tbl: Entries)
    requires Writable(obj)
    requires tbl.Keys == (set k | k in row && (k in obj || !row[k].Val?)) + obj.Keys
    requires forall k :: k in tbl && k !in obj ==> tbl[k] == row[k]
    requires forall k :: k in obj ==> tbl[k] == Val(Coerced(Entry(row, k), ToValue(obj[k]).value))
    ensures tbl == UpdatedRow(row, obj)
  {
  }

  /** The row's own loops: first what is gone, then what is said. */
  method UpdateRow(row: Entries, obj: Obj) returns (r: Option<Entries>)
    ensures r.None? <==> !Writable(obj)
    ensures Writable(obj) ==> r == Some(UpdatedRow(row, obj))
  {
    var kept := DropGone(row, obj);
    var tbl, left := kept, obj.Keys;
    while left != {}
      invariant left <= obj.Keys
      invariant forall k :: k in obj && k !in left ==> ToValue(obj[k]).Some?
      invariant tbl.Keys == kept.Keys + (obj.Keys - left)
      invariant forall k :: k in tbl && (k !in obj || k in left) ==> tbl[k] == row[k]
      invariant forall k :: k in obj && k !in left ==> tbl[k] == Val(Coerced(Entry(row, k), ToValue(obj[k]).value))
      decreases left
    {
      var k :| k in left;
      var value := ToValue(obj[k]);
      if value.None? { return None; }
      assert Entry(tbl, k) == Entry(row, k);
      tbl := tbl[k := Val(Coerced(Entry(tbl, k), value.value))];
      left := left - {k};
    }
    RowIsUpdated(row, obj, tbl);
    return Some(tbl);
  }

  /** The list's own loop: rows updated by position, then pushed, then dropped from the end. */
  method UpdateRows(rows: seq<Entries>, items: seq<Obj>) returns (r: Option<seq<Entries>>)
    ensures r.None? <==> exists i :: 0 <= i < |items| && !Writable(items[i])
    ensures r.Some? ==> r.value == NewRows(rows, items)
  {
    var aot := rows;
    for i := 0 to |items|
      invariant forall j :: 0 <= j < i ==> Writable(items[j])
      invariant |aot| == if i < |rows| then |rows| else i
      invariant forall j :: 0 <= j < i ==>
                aot[j] == if j < |rows| then UpdatedRow(rows[j], items[j]) else NewRow(items[j])
      invariant forall j :: i <= j < |rows| ==> aot[j] == rows[j]
    {
      if i < |aot| {
        var row := UpdateRow(aot[i], items[i]);
        if row.None? { return None; }
        aot := aot[i := row.value];
      } else {
        if exists k :: k in items[i] && ToValue(items[i][k]).None? { return None; }
        aot := aot + [NewRow(items[i])];
      }
    }
    while |aot| > |items|
      invariant |aot| >= |items|
      invariant forall j :: 0 <= j < |items| ==> aot[j] == NewRows(rows, items)[j]
    {
      aot := aot[..|aot| - 1];
    }
    assert aot == NewRows(rows, items);
    return Some(aot);
  }
}
