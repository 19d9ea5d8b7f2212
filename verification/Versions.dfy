/**
  How the plugin registry orders versions and picks the newest. Segments compare as
  numbers where both are numbers and as text otherwise; a numeric extra segment is more
  version and a textual one is a pre-release. That is an order only as long as numbers
  and text do not meet at one position.
 */
module Versions {
  import opened Options

  datatype Ordering = Less | Equal | Greater

  function Flip(o: Ordering): Ordering {
    match o case Less => Greater case Equal => Equal case Greater => Less
  }

  // ---------- Segments ----------

  predicate IsSeparator(c: char) {
    c == '.' || c == '+' || c == '-'
  }

  /** The stretches between separators, empty ones included. */
  function Pieces(s: string): (ps: seq<string>)
    ensures ps != []
  {
    if s == "" then [""]
    else
      var ps, c := Pieces(s[..|s| - 1]), s[|s| - 1];
      if IsSeparator(c) then ps + [""] else ps[..|ps| - 1] + [ps[|ps| - 1] + [c]]
  }

  function NonEmpty(ps: seq<string>): seq<string> {
    if ps == [] then []
    else
      var front := NonEmpty(ps[..|ps| - 1]);
      if ps[|ps| - 1] == "" then front else front + [ps[|ps| - 1]]
  }

  function Split(s: string): seq<string> {
    NonEmpty(Pieces(s))
  }

  predicate AllDigits(s: string) {
    forall i :: 0 <= i < |s| ==> '0' <= s[i] <= '9'
  }

  function Value(s: string): nat
    requires AllDigits(s)
  {
    if s == "" then 0 else Value(s[..|s| - 1]) * 10 + (s[|s| - 1] - '0') as nat
  }

  const MAX_U64: nat := 0xFFFF_FFFF_FFFF_FFFF

  predicate Numeric(s: string) {
    s != "" && AllDigits(s) && Value(s) <= MAX_U64
  }

  function CompareNumbers(a: nat, b: nat): Ordering {
    if a < b then Less else if a == b then Equal else Greater
  }

  function CompareText(a: string, b: string): Ordering {
    if a == "" then (if b == "" then Equal else Less)
    else if b == "" then Greater
    else if a[0] != b[0] then (if a[0] < b[0] then Less else Greater)
    else CompareText(a[1..], b[1..])
  }

  function CompareSegment(l: string, r: string): Ordering {
    if Numeric(l) && Numeric(r) then CompareNumbers(Value(l), Value(r)) else CompareText(l, r)
  }

  function CompareSegments(x: seq<string>, y: seq<string>): Ordering {
    if x == [] && y == [] then Equal
    else if x == [] then (if Numeric(y[0]) then Less else Greater)
    else if y == [] then (if Numeric(x[0]) then Greater else Less)
    else
      var ord := CompareSegment(x[0], y[0]);
      if ord != Equal then ord else CompareSegments(x[1..], y[1..])
  }

  function CompareVersions(a: string, b: string): Ordering {
    CompareSegments(Split(a), Split(b))
  }

  // ---------- True of all versions ----------

  lemma {:induction false} TextFlips(a: string, b: string)
    ensures CompareText(b, a) == Flip(CompareText(a, b))
    ensures CompareText(a, b) == Equal <==> a == b
  {
    if a != "" && b != "" {
      TextFlips(a[1..], b[1..]);
      assert a == [a[0]] + a[1..] && b == [b[0]] + b[1..];
    }
  }

  lemma {:induction false} SegmentsFlip(x: seq<string>, y: seq<string>)
    ensures CompareSegments(y, x) == Flip(CompareSegments(x, y))
  {
    if x != [] && y != [] {
      TextFlips(x[0], y[0]);
      SegmentsFlip(x[1..], y[1..]);
    }
  }

  /** Swapping the two versions turns the answer round, whatever they are. */
  lemma {:induction false} VersionsFlip(a: string, b: string)
    ensures CompareVersions(b, a) == Flip(CompareVersions(a, b))
    ensures CompareVersions(a, a) == Equal
  {
    SegmentsFlip(Split(a), Split(b));
    SegmentsFlip(Split(a), Split(a));
  }

  // ---------- An order where number and text do not meet ----------

  datatype Kind = Number | Text

  /** Each position holds numbers or it holds text, the same for every version of this shape. */
  predicate Fits(x: seq<string>, shape: int -> Kind, from: int) {
    forall i :: 0 <= i < |x| ==> (Numeric(x[i]) <==> shape(from + i) == Number)
  }

  predicate HasShape(v: string, shape: int -> Kind) {
    Fits(Split(v), shape, 0)
  }

  lemma {:induction false} TextTransitive(a: string, b: string, c: string)
    requires CompareText(a, b) != Greater && CompareText(b, c) != Greater
    ensures CompareText(a, c) != Greater
    ensures CompareText(a, c) == Equal ==> CompareText(a, b) == Equal && CompareText(b, c) == Equal
  {
    if a != "" && b != "" && c != "" && a[0] == b[0] && b[0] == c[0] {
      TextTransitive(a[1..], b[1..], c[1..]);
    }
  }

  lemma {:induction false} FitsRest(x: seq<string>, shape: int -> Kind, from: int)
    requires x != [] && Fits(x, shape, from)
    ensures (Numeric(x[0]) <==> shape(from) == Number) && Fits(x[1..], shape, from + 1)
  {
  }

  lemma {:induction false} SegmentsTransitive(x: seq<string>, y: seq<string>, z: seq<string>,
                                              shape: int -> Kind, from: int)
    requires Fits(x, shape, from) && Fits(y, shape, from) && Fits(z, shape, from)
    requires CompareSegments(x, y) != Greater && CompareSegments(y, z) != Greater
    ensures CompareSegments(x, z) != Greater
    ensures CompareSegments(x, z) == Equal ==> CompareSegments(x, y) == Equal && CompareSegments(y, z) == Equal
    decreases |y|
  {
    if x != [] { FitsRest(x, shape, from); }
    if y != [] { FitsRest(y, shape, from); }
    if z != [] { FitsRest(z, shape, from); }
    if x != [] && y != [] && z != [] {
      if shape(from) == Text {
        TextTransitive(x[0], y[0], z[0]);
      }
      if CompareSegment(x[0], y[0]) == Equal && CompareSegment(y[0], z[0]) == Equal {
        SegmentsTransitive(x[1..], y[1..], z[1..], shape, from + 1);
      }
    }
  }

  /** A newer b and b newer c make a newer c, among versions of one shape; ties included. */
  lemma {:induction false} VersionsTransitive(a: string, b: string, c: string, shape: int -> Kind)
    requires HasShape(a, shape) && HasShape(b, shape) && HasShape(c, shape)
    requires CompareVersions(a, b) != Greater && CompareVersions(b, c) != Greater
    ensures CompareVersions(a, c) != Greater
    ensures CompareVersions(a, c) == Equal ==> CompareVersions(a, b) == Equal && CompareVersions(b, c) == Equal
  {
    SegmentsTransitive(Split(a), Split(b), Split(c), shape, 0);
  }

  /** Versions of k numbers with at most one textual suffix have one shape. */
  lemma ReleasesShareShape(v: string, k: nat)
    requires k <= |Split(v)| <= k + 1
    requires forall i :: 0 <= i < |Split(v)| ==> (Numeric(Split(v)[i]) <==> i < k)
    ensures HasShape(v, i => if i < k then Number else Text)
  {
  }

  // ---------- What that order is ----------

  function Values(x: seq<string>): seq<nat>
    requires forall i :: 0 <= i < |x| ==> Numeric(x[i])
  {
    seq(|x|, i requires 0 <= i < |x| && Numeric(x[i]) => Value(x[i]))
  }

  /** Dictionary order on lists of numbers, a proper prefix coming first. */
  ghost predicate NumbersBefore(a: seq<nat>, b: seq<nat>) {
    exists k: nat :: k <= |a| && k < |b| && (forall i :: 0 <= i < k ==> a[i] == b[i]) && (k == |a| || a[k] < b[k])
  }

  lemma {:induction false} NumericOrder(x: seq<string>, y: seq<string>)
    requires forall i :: 0 <= i < |x| ==> Numeric(x[i])
    requires forall i :: 0 <= i < |y| ==> Numeric(y[i])
    ensures CompareSegments(x, y) == Less ==> NumbersBefore(Values(x), Values(y))
    ensures CompareSegments(x, y) == Greater ==> NumbersBefore(Values(y), Values(x))
    ensures CompareSegments(x, y) == Equal ==> Values(x) == Values(y)
  {
    var a, b := Values(x), Values(y);
    if x != [] && y != [] && CompareSegment(x[0], y[0]) == Equal {
      NumericOrder(x[1..], y[1..]);
      assert Values(x[1..]) == a[1..] && Values(y[1..]) == b[1..] && a[0] == b[0];
      if NumbersBefore(a[1..], b[1..]) { BeforeCons(a, b); }
      if NumbersBefore(b[1..], a[1..]) { BeforeCons(b, a); }
      assert a[1..] == b[1..] ==> a == [a[0]] + a[1..] == b;
    } else if x != [] || y != [] {
      if y == [] || (x != [] && b[0] < a[0]) { BeforeAtOnce(b, a); } else { BeforeAtOnce(a, b); }
    }
  }

  lemma {:induction false} BeforeAtOnce(a: seq<nat>, b: seq<nat>)
    requires b != [] && (a == [] || a[0] < b[0])
    ensures NumbersBefore(a, b)
  {
    var k: nat := 0;
    assert k <= |a| && k < |b| && (k == |a| || a[k] < b[k]);
  }

  lemma {:induction false} BeforeCons(a: seq<nat>, b: seq<nat>)
    requires a != [] && b != [] && a[0] == b[0] && NumbersBefore(a[1..], b[1..])
    ensures NumbersBefore(a, b)
  {
  }

  lemma {:induction false} BeforeIsStrict(a: seq<nat>, b: seq<nat>)
    requires NumbersBefore(a, b)
    ensures a != b && !NumbersBefore(b, a)
  {
  }

  /** On all-numeric versions the comparison is dictionary order on the numbers, exactly. */
  lemma {:induction false} NumericVersions(a: string, b: string)
    requires forall i :: 0 <= i < |Split(a)| ==> Numeric(Split(a)[i])
    requires forall i :: 0 <= i < |Split(b)| ==> Numeric(Split(b)[i])
    ensures CompareVersions(a, b) == Less <==> NumbersBefore(Values(Split(a)), Values(Split(b)))
    ensures CompareVersions(a, b) == Greater <==> NumbersBefore(Values(Split(b)), Values(Split(a)))
    ensures CompareVersions(a, b) == Equal <==> Values(Split(a)) == Values(Split(b))
  {
    var x, y := Values(Split(a)), Values(Split(b));
    NumericOrder(Split(a), Split(b));
    if NumbersBefore(x, y) { BeforeIsStrict(x, y); }
    if NumbersBefore(y, x) { BeforeIsStrict(y, x); }
  }

  /** Segments decided by a common stretch of equal length are decided there, and otherwise by what follows it. */
  lemma {:induction false} CommonStretch(x: seq<string>, y: seq<string>, s: seq<string>, t: seq<string>)
    requires |x| == |y|
    ensures CompareSegments(x + s, y + t)
            == if CompareSegments(x, y) == Equal then CompareSegments(s, t) else CompareSegments(x, y)
  {
    if x == [] {
      assert x + s == s && y + t == t;
    } else {
      assert (x + s)[1..] == x[1..] + s && (y + t)[1..] == y[1..] + t;
      CommonStretch(x[1..], y[1..], s, t);
    }
  }

  function Suffix(pre: Option<string>): seq<string> {
    if pre.Some? then [pre.value] else []
  }

  /**
    Equally many numbers and at most one textual suffix: the numbers decide first, and
    among equal numbers every pre-release sorts below the release and pre-releases sort as text.
   */
  lemma {:induction false} ReleaseOrder(x: seq<string>, pre: Option<string>, y: seq<string>, pre': Option<string>)
    requires |x| == |y|
    requires pre.Some? ==> !Numeric(pre.value)
    requires pre'.Some? ==> !Numeric(pre'.value)
    ensures CompareSegments(x + Suffix(pre), y + Suffix(pre'))
            == if CompareSegments(x, y) != Equal then CompareSegments(x, y)
               else if pre.Some? && pre'.Some? then CompareText(pre.value, pre'.value)
               else if pre.Some? then Less
               else if pre'.Some? then Greater
               else Equal
  {
    CommonStretch(x, y, Suffix(pre), Suffix(pre'));
    if pre.Some? && pre'.Some? {
      assert CompareSegments(Suffix(pre)[1..], Suffix(pre')[1..]) == Equal;
    }
  }

  // ---------- Where it is no order ----------

  lemma {:induction false} PiecesSnoc(p: string, sep: char, t: string)
    requires IsSeparator(sep) && forall i :: 0 <= i < |t| ==> !IsSeparator(t[i])
    ensures Pieces(p + [sep] + t) == Pieces(p) + [t]
  {
    var s := p + [sep] + t;
    if t == "" {
      assert s == p + [sep] && s[..|s| - 1] == p;
    } else {
      var t' := t[..|t| - 1];
      assert s[..|s| - 1] == p + [sep] + t';
      PiecesSnoc(p, sep, t');
      assert t == t' + [t[|t| - 1]];
    }
  }

  /** One more segment written after a version is one more segment of it. */
  lemma {:induction false} SplitSnoc(p: string, sep: char, t: string)
    requires IsSeparator(sep) && t != "" && forall i :: 0 <= i < |t| ==> !IsSeparator(t[i])
    ensures Split(p + [sep] + t) == Split(p) + [t]
  {
    PiecesSnoc(p, sep, t);
    assert (Pieces(p) + [t])[..|Pieces(p)|] == Pieces(p);
  }

  lemma {:induction false} ExtraSegment(x: seq<string>, s: string)
    ensures CompareSegments(x, x + [s]) == if Numeric(s) then Less else Greater
  {
    SegmentsFlip(x, x);
    CommonStretch(x, x, [], [s]);
    assert x + [] == x;
  }

  /**
    The comparison puts these three in one order: the first below the second below the third,
    and the first below the third.
   */
  predicate InAscendingOrder(x: seq<string>, y: seq<string>, z: seq<string>) {
    CompareSegments(x, y) == Less && CompareSegments(y, z) == Less && CompareSegments(x, z) == Less
  }

  /**
    A textual and a numeric extra segment of the same version, and the version itself:
    text below version below number always, so the three are in order exactly when the
    text also sorts below the number's digits.
   */
  lemma {:induction false} MeetingIsOrderedIff(x: seq<string>, t: string, n: string)
    requires !Numeric(t) && Numeric(n)
    ensures CompareSegments(x + [t], x) == Less && CompareSegments(x, x + [n]) == Less
    ensures CompareSegments(x + [t], x + [n]) == CompareText(t, n)
    ensures InAscendingOrder(x + [t], x, x + [n]) <==> CompareText(t, n) == Less
  {
    ExtraSegment(x, t);
    ExtraSegment(x, n);
    SegmentsFlip(x, x + [t]);
    SegmentsFlip(x, x);
    CommonStretch(x, x, [t], [n]);
    TextFlips(t, n);
  }

  lemma {:induction false} RcAndOne()
    ensures !Numeric("rc1") && Numeric("1") && CompareText("rc1", "1") == Greater
  {
  }

  /** Every version p goes round in a circle: p-rc1 below p, p below p.1, and p.1 below p-rc1. */
  lemma {:induction false} CircleAroundEveryVersion(p: string)
    ensures CompareVersions(p + "-rc1", p) == Less
    ensures CompareVersions(p, p + ".1") == Less
    ensures CompareVersions(p + ".1", p + "-rc1") == Less
  {
    SplitSnoc(p, '-', "rc1");
    SplitSnoc(p, '.', "1");
    assert p + "-rc1" == p + ['-'] + "rc1" && p + ".1" == p + ['.'] + "1";
    RcAndOne();
    MeetingIsOrderedIff(Split(p), "rc1", "1");
    SegmentsFlip(Split(p) + ["rc1"], Split(p) + ["1"]);
  }

  // ---------- Picking the newest ----------

  datatype PluginVersion = PluginVersion(version: string, minCore: string)

  predicate IsWhitespace(c: char) {
    var n := c as int;
    9 <= n <= 13 || n == 32 || n == 0x85 || n == 0xA0 || n == 0x1680 || 0x2000 <= n <= 0x200A
    || n == 0x2028 || n == 0x2029 || n == 0x202F || n == 0x205F || n == 0x3000
  }

  predicate RunsOn(pv: PluginVersion, core: string) {
    (forall i :: 0 <= i < |pv.minCore| ==> IsWhitespace(pv.minCore[i])) || CompareVersions(core, pv.minCore) != Less
  }

  /** The reduction both picks use: the first entry stays until a newer one comes. */
  function Reduced<T>(newer: (T, T) -> bool, xs: seq<T>): Option<T> {
    if xs == [] then None
    else
      var before, x := Reduced(newer, xs[..|xs| - 1]), xs[|xs| - 1];
      if before.None? || newer(x, before.value) then Some(x) else before
  }

  predicate Newer(pv: PluginVersion, best: PluginVersion) {
    CompareVersions(pv.version, best.version) == Greater
  }

  function Latest(vs: seq<PluginVersion>): Option<PluginVersion> {
    Reduced(Newer, vs)
  }

  function ThatRunOn(vs: seq<PluginVersion>, core: string): (r: seq<PluginVersion>)
    ensures forall pv :: pv in r <==> pv in vs && RunsOn(pv, core)
  {
    if vs == [] then []
    else
      var front := ThatRunOn(vs[..|vs| - 1], core);
      if RunsOn(vs[|vs| - 1], core) then front + [vs[|vs| - 1]] else front
  }

  function LatestFor(vs: seq<PluginVersion>, core: string): Option<PluginVersion> {
    Latest(ThatRunOn(vs, core))
  }

  predicate AllOfShape(vs: seq<PluginVersion>, shape: int -> Kind) {
    forall i :: 0 <= i < |vs| ==> HasShape(vs[i].version, shape)
  }

  /** The pick is one of the list and nothing in the list is newer; only an empty list has none. */
  ghost predicate IsNewest(pick: Option<PluginVersion>, vs: seq<PluginVersion>) {
    && (pick.None? <==> vs == [])
    && (pick.Some? ==> pick.value in vs && forall pv :: pv in vs ==>
              CompareVersions(pv.version, pick.value.version) != Greater)
  }

  lemma {:induction false} LatestIsNewest(vs: seq<PluginVersion>, shape: int -> Kind)
    requires AllOfShape(vs, shape)
    ensures IsNewest(Latest(vs), vs)
  {
    if vs != [] {
      var front, pv := vs[..|vs| - 1], vs[|vs| - 1];
      LatestIsNewest(front, shape);
      VersionsFlip(pv.version, pv.version);
      assert vs == front + [pv];
      if front != [] {
        var best := Latest(front).value;
        VersionsFlip(pv.version, best.version);
        var i :| 0 <= i < |front| && front[i] == best;
        assert HasShape(best.version, shape) by { assert vs[i] == best; }
        if CompareVersions(pv.version, best.version) == Greater {
          forall o | o in front ensures CompareVersions(o.version, pv.version) != Greater {
            var j :| 0 <= j < |front| && front[j] == o;
            assert vs[j] == o;
            VersionsTransitive(o.version, best.version, pv.version, shape);
          }
        }
      }
    }
  }

  /** Two lists of the same versions, in any order and with any repeats, have equally new picks. */
  lemma {:induction false} NewestIsOrderIndependent(pick: Option<PluginVersion>, vs: seq<PluginVersion>,
                                                    pick': Option<PluginVersion>, vs': seq<PluginVersion>)
    requires IsNewest(pick, vs) && IsNewest(pick', vs')
    requires forall pv :: pv in vs <==> pv in vs'
    ensures pick.None? <==> pick'.None?
    ensures pick.Some? ==> CompareVersions(pick.value.version, pick'.value.version) == Equal
  {
    assert vs != [] ==> vs[0] in vs;
    assert vs' != [] ==> vs'[0] in vs';
    if pick.Some? && pick'.Some? {
      VersionsFlip(pick.value.version, pick'.value.version);
    }
  }

  /** Both picks, on versions of one shape, whatever order the index lists them in. */
  lemma {:induction false} PicksAreOrderIndependent(vs: seq<PluginVersion>, vs': seq<PluginVersion>, core: string,
                                                    shape: int -> Kind)
    requires AllOfShape(vs, shape)
    requires forall pv :: pv in vs <==> pv in vs'
    ensures IsNewest(Latest(vs), vs) && IsNewest(LatestFor(vs, core), ThatRunOn(vs, core))
    ensures Latest(vs).None? <==> Latest(vs').None?
    ensures Latest(vs).Some? ==> CompareVersions(Latest(vs).value.version, Latest(vs').value.version) == Equal
    ensures LatestFor(vs, core).None? <==> LatestFor(vs', core).None?
    ensures LatestFor(vs, core).Some? ==>
              CompareVersions(LatestFor(vs, core).value.version, LatestFor(vs', core).value.version) == Equal
  {
    ShapeCarries(vs, vs', shape);
    ShapeCarries(vs, ThatRunOn(vs, core), shape);
    ShapeCarries(vs, ThatRunOn(vs', core), shape);
    LatestIsNewest(vs, shape);
    LatestIsNewest(vs', shape);
    NewestIsOrderIndependent(Latest(vs), vs, Latest(vs'), vs');
    LatestIsNewest(ThatRunOn(vs, core), shape);
    LatestIsNewest(ThatRunOn(vs', core), shape);
    NewestIsOrderIndependent(LatestFor(vs, core), ThatRunOn(vs, core), LatestFor(vs', core), ThatRunOn(vs', core));
  }

  lemma {:induction false} ShapeCarries(vs: seq<PluginVersion>, vs': seq<PluginVersion>, shape: int -> Kind)
    requires AllOfShape(vs, shape) && forall pv :: pv in vs' ==> pv in vs
    ensures AllOfShape(vs', shape)
  {
    forall i | 0 <= i < |vs'| ensures HasShape(vs'[i].version, shape) {
      assert vs'[i] in vs';
      var j :| 0 <= j < |vs| && vs[j] == vs'[i];
    }
  }

  /** A newer core runs whatever an older one runs, as long as the three versions are of one shape. */
  lemma {:induction false} RunsOnNewerCore(pv: PluginVersion, core: string, core': string, shape: int -> Kind)
    requires HasShape(core, shape) && HasShape(core', shape) && HasShape(pv.minCore, shape)
    requires CompareVersions(core, core') != Greater && RunsOn(pv, core)
    ensures RunsOn(pv, core')
  {
    VersionsFlip(core, pv.minCore);
    VersionsFlip(core', pv.minCore);
    if CompareVersions(core, pv.minCore) != Less {
      VersionsTransitive(pv.minCore, core, core', shape);
    }
  }

  /** Off that ground it fails everywhere: what asks for p-rc1 runs on p and not on the newer p.1. */
  lemma {:induction false} NewerCoreCanRefuse(p: string, version: string)
    ensures var pv := PluginVersion(version, p + "-rc1");
            CompareVersions(p, p + ".1") == Less && RunsOn(pv, p) && !RunsOn(pv, p + ".1")
  {
    CircleAroundEveryVersion(p);
    VersionsFlip(p + "-rc1", p);
    var minCore := p + "-rc1";
    assert minCore[|p| + 1] == 'r';
  }

  /** And the pick then depends on the order of the list. */
  lemma {:induction false} PickCanDependOnOrder(p: string, core: string)
    ensures var pre, rel := PluginVersion(p + "-rc1", core), PluginVersion(p, core);
            var next := PluginVersion(p + ".1", core);
            Latest([pre, rel, next]) == Some(next) && Latest([next, rel, pre]) == Some(pre)
  {
    var pre, rel, next := PluginVersion(p + "-rc1", core), PluginVersion(p, core), PluginVersion(p + ".1", core);
    CircleAroundEveryVersion(p);
    VersionsFlip(p + "-rc1", p);
    VersionsFlip(p, p + ".1");
    VersionsFlip(p + ".1", p + "-rc1");
    ReducedOfThree(Newer, pre, rel, next);
    ReducedOfThree(Newer, next, rel, pre);
  }

  lemma {:induction false} ReducedOfThree<T>(newer: (T, T) -> bool, a: T, b: T, c: T)
    ensures var ab := if newer(b, a) then b else a;
            Reduced(newer, [a, b, c]) == Some(if newer(c, ab) then c else ab)
  {
    assert [a, b, c][..2] == [a, b] && [a, b][..1] == [a] && [a][..0] == [];
    assert Reduced(newer, [a]) == Some(a);
    assert Reduced(newer, [a, b]) == Some(if newer(b, a) then b else a);
  }
}
