/**
  Filling `{placeholder}`s into a command line. The code replaces one key after another,
  in whatever order a hash map yields them, each time over the whole text so far; the
  reference reads the template once and fills every placeholder at the same time.
 */
module Render {
  import opened Basics
  import opened Options

  // ---------- As the code does it ----------

  /** Every occurrence replaced, leftmost first, what was put in not looked at again. */
  function Replace(s: string, pat: string, to: string): string
    requires pat != ""
  {
    if s == "" then ""
    else if StartsWith(s, pat) then to + Replace(s[|pat|..], pat, to)
    else [s[0]] + Replace(s[1..], pat, to)
  }

  function Pat(key: string): string {
    "{" + key + "}"
  }

  function ReplaceAll(s: string, order: seq<string>, vars: map<string, string>): string
    requires forall k :: k in order ==> k in vars
  {
    if order == [] then s
    else
      var last := order[|order| - 1];
      Replace(ReplaceAll(s, order[..|order| - 1], vars), Pat(last), vars[last])
  }

  /** What is left looks like a placeholder: an opening brace and a closing one somewhere after it. */
  predicate LooksUnfilled(s: string) {
    exists i, j :: 0 <= i < j < |s| && s[i] == '{' && s[j] == '}'
  }

  function RenderArg(arg: string, order: seq<string>, vars: map<string, string>): Option<string>
    requires forall k :: k in order ==> k in vars
  {
    var rendered := ReplaceAll(arg, order, vars);
    if LooksUnfilled(rendered) then None else Some(rendered)
  }

  // ---------- The reference ----------

  /** A template read once: plain characters, placeholders, and braces that are part of none. */
  datatype Piece = Plain(c: char) | Open | Close | Hole(name: string)

  predicate BraceFree(s: string) {
    '{' !in s && '}' !in s
  }

  /** Where the first brace is, or the length when there is none. */
  function FirstBrace(s: string): (n: nat)
    ensures n <= |s| && BraceFree(s[..n])
    ensures n < |s| ==> s[n] == '{' || s[n] == '}'
  {
    if s == "" || s[0] == '{' || s[0] == '}' then 0
    else
      var n := FirstBrace(s[1..]);
      assert s[..n + 1] == [s[0]] + s[1..][..n];
      n + 1
  }

  /** The piece a text begins with: at an opening brace, a placeholder if the next brace closes. */
  function Head(s: string): Piece
    requires s != ""
  {
    if s[0] == '{' then
      var n := FirstBrace(s[1..]);
      if n < |s[1..]| && s[1..][n] == '}' then Hole(s[1..][..n]) else Open
    else if s[0] == '}' then Close
    else Plain(s[0])
  }

  function Text(p: Piece): (t: string)
    ensures t != ""
  {
    match p
    case Plain(c) => [c]
    case Open => "{"
    case Close => "}"
    case Hole(name) => Pat(name)
  }

  lemma {:induction false} HeadText(s: string)
    requires s != ""
    ensures |Text(Head(s))| <= |s| && s == Text(Head(s)) + s[|Text(Head(s))|..]
    ensures Tidy(Head(s))
  {
  }

  function Parse(s: string): seq<Piece>
    decreases |s|
  {
    if s == "" then []
    else
      HeadText(s);
      [Head(s)] + Parse(s[|Text(Head(s))|..])
  }

  function Flat(ps: seq<Piece>): string {
    if ps == [] then "" else Text(ps[0]) + Flat(ps[1..])
  }

  function Plains(s: string): seq<Piece> {
    seq(|s|, i requires 0 <= i < |s| => Plain(s[i]))
  }

  function FillOne(p: Piece, keys: set<string>, vars: map<string, string>): seq<Piece>
    requires keys <= vars.Keys
  {
    if p.Hole? && p.name in keys then Plains(vars[p.name]) else [p]
  }

  /** Every placeholder named in keys filled, all at the same time. */
  function Fill(ps: seq<Piece>, keys: set<string>, vars: map<string, string>): seq<Piece>
    requires keys <= vars.Keys
  {
    if ps == [] then [] else FillOne(ps[0], keys, vars) + Fill(ps[1..], keys, vars)
  }

  /** The placeholders of a template. */
  function Holes(ps: seq<Piece>): set<string> {
    set p | p in ps && p.Hole? :: p.name
  }

  /** What rendering should mean: all placeholders filled at once, or nothing if one is unknown. */
  function Substituted(arg: string, vars: map<string, string>): Option<string> {
    if Holes(Parse(arg)) <= vars.Keys then Some(Flat(Fill(Parse(arg), vars.Keys, vars))) else None
  }

  predicate Tidy(p: Piece) {
    match p
    case Plain(c) => c != '{' && c != '}'
    case Hole(name) => BraceFree(name)
    case _ => true
  }

  /** Plain text is plain, names have no braces, and no stray brace opens before a stray one closes. */
  predicate NonNested(ps: seq<Piece>) {
    && (forall i :: 0 <= i < |ps| ==> Tidy(ps[i]))
    && forall i, j :: 0 <= i < j < |ps| && ps[i] == Open ==> ps[j] != Close
  }

  predicate Clean(vars: map<string, string>) {
    forall k :: k in vars ==> BraceFree(k) && BraceFree(vars[k])
  }

  // ---------- Reading a template loses nothing ----------

  lemma {:induction false} FlatOfParse(s: string)
    ensures Flat(Parse(s)) == s
    ensures forall i :: 0 <= i < |Parse(s)| ==> Tidy(Parse(s)[i])
    decreases |s|
  {
    if s != "" {
      HeadText(s);
      FlatOfParse(s[|Text(Head(s))|..]);
    }
  }

  lemma {:induction false} FlatJoin(a: seq<Piece>, b: seq<Piece>)
    ensures Flat(a + b) == Flat(a) + Flat(b)
  {
    if a == [] {
      assert a + b == b;
    } else {
      assert (a + b)[1..] == a[1..] + b;
      FlatJoin(a[1..], b);
    }
  }

  lemma {:induction false} FlatOfPlains(s: string)
    ensures Flat(Plains(s)) == s
  {
    if s != "" {
      assert Plains(s) == [Plain(s[0])] + Plains(s[1..]);
      FlatOfPlains(s[1..]);
    }
  }

  // ---------- One key, over the text ----------

  lemma {:induction false} ReplaceSkips(u: string, rest: string, key: string, to: string)
    requires '{' !in u
    ensures Replace(u + rest, Pat(key), to) == u + Replace(rest, Pat(key), to)
  {
    if u == "" {
      assert u + rest == rest;
    } else {
      assert (u + rest)[1..] == u[1..] + rest;
      assert (u + rest)[0] == u[0] != '{';
      ReplaceSkips(u[1..], rest, key, to);
    }
  }

  /** After a stray opening brace no closing one follows directly, so no key's placeholder begins there. */
  lemma {:induction false} NoCloseAhead(ps: seq<Piece>, key: string)
    requires BraceFree(key) && forall i :: 0 <= i < |ps| ==> Tidy(ps[i]) && ps[i] != Close
    ensures !StartsWith(Flat(ps), key + "}")
  {
    var pat := key + "}";
    if ps != [] && StartsWith(Flat(ps), pat) {
      assert Flat(ps)[0] == pat[0];
      assert Text(ps[0])[0] == pat[0];
      if key == "" {
        assert false;
      } else {
        assert pat[0] in key;
        assert ps[0].Plain?;
        assert Flat(ps)[1..] == Flat(ps[1..]);
        assert pat[1..] == key[1..] + "}";
        assert Flat(ps)[..|pat|][1..] == Flat(ps[1..])[..|pat| - 1];
        NoCloseAhead(ps[1..], key[1..]);
        assert false;
      }
    }
  }

  lemma {:induction false} OtherHole(name: string, rest: string, key: string)
    requires BraceFree(name) && BraceFree(key) && StartsWith(Pat(name) + rest, Pat(key))
    ensures name == key
  {
    var s, pat := Pat(name) + rest, Pat(key);
    assert s[|name| + 1] == '}' && pat[|key| + 1] == '}';
    assert forall i :: 0 <= i < |pat| ==> s[..|pat|][i] == s[i] == pat[i];
    assert forall i :: 0 <= i < |name| ==> s[i + 1] == name[i] != '}';
    assert forall i :: 0 <= i < |key| ==> pat[i + 1] == key[i] != '}';
    assert |name| == |key|;
    assert forall i :: 0 <= i < |name| ==> name[i] == s[i + 1] == pat[i + 1] == key[i];
  }

  lemma {:induction false} ReplaceHits(key: string, rest: string, to: string)
    ensures Replace(Pat(key) + rest, Pat(key), to) == to + Replace(rest, Pat(key), to)
  {
  }

  lemma {:induction false} ReplaceMissesHole(name: string, rest: string, key: string, to: string)
    requires BraceFree(name) && BraceFree(key) && name != key
    ensures Replace(Pat(name) + rest, Pat(key), to) == Pat(name) + Replace(rest, Pat(key), to)
  {
    var s := Pat(name) + rest;
    if StartsWith(s, Pat(key)) {
      OtherHole(name, rest, key);
    }
    assert s[1..] == (name + "}") + rest;
    ReplaceSkips(name + "}", rest, key, to);
  }

  lemma {:induction false} ReplaceMissesOpen(rest: string, key: string, to: string)
    requires !StartsWith(rest, key + "}")
    ensures Replace("{" + rest, Pat(key), to) == "{" + Replace(rest, Pat(key), to)
  {
    var s, pat := "{" + rest, Pat(key);
    assert s[1..] == rest && pat[1..] == key + "}";
    assert |pat| <= |s| ==> s[..|pat|][1..] == rest[..|key| + 1];
  }

  lemma {:induction false} FlatOne(p: Piece)
    ensures Flat([p]) == Text(p)
  {
  }

  /** Replacing a key in the text fills exactly that key's placeholders. */
  lemma {:induction false} ReplaceFills(ps: seq<Piece>, key: string, vars: map<string, string>)
    requires NonNested(ps) && key in vars && BraceFree(key)
    ensures Replace(Flat(ps), Pat(key), vars[key]) == Flat(Fill(ps, {key}, vars))
  {
    if ps != [] {
      var p, rest, to := ps[0], ps[1..], vars[key];
      ReplaceFills(rest, key, vars);
      FlatJoin(FillOne(p, {key}, vars), Fill(rest, {key}, vars));
      FlatOne(p);
      match p {
        case Hole(name) =>
          if name == key {
            FlatOfPlains(to);
            ReplaceHits(key, Flat(rest), to);
          } else {
            ReplaceMissesHole(name, Flat(rest), key, to);
          }
        case Open =>
          NoCloseAhead(rest, key);
          ReplaceMissesOpen(Flat(rest), key, to);
        case _ =>
          ReplaceSkips(Text(p), Flat(rest), key, to);
      }
    }
  }

  // ---------- All keys, in any order ----------

  lemma {:induction false} FillJoin(a: seq<Piece>, b: seq<Piece>, keys: set<string>, vars: map<string, string>)
    requires keys <= vars.Keys
    ensures Fill(a + b, keys, vars) == Fill(a, keys, vars) + Fill(b, keys, vars)
  {
    if a == [] {
      assert a + b == b;
    } else {
      assert (a + b)[1..] == a[1..] + b;
      FillJoin(a[1..], b, keys, vars);
    }
  }

  lemma {:induction false} FillOfPlains(ps: seq<Piece>, keys: set<string>, vars: map<string, string>)
    requires keys <= vars.Keys && forall i :: 0 <= i < |ps| ==> ps[i].Plain?
    ensures Fill(ps, keys, vars) == ps
  {
    if ps != [] {
      FillOfPlains(ps[1..], keys, vars);
    }
  }

  /** Filling some keys and then another is filling them together. */
  lemma {:induction false} FillOneMore(ps: seq<Piece>, keys: set<string>, key: string, vars: map<string, string>)
    requires keys <= vars.Keys && key in vars
    ensures Fill(Fill(ps, keys, vars), {key}, vars) == Fill(ps, keys + {key}, vars)
  {
    if ps != [] {
      var p, rest := ps[0], ps[1..];
      FillOneMore(rest, keys, key, vars);
      FillJoin(FillOne(p, keys, vars), Fill(rest, keys, vars), {key}, vars);
      if p.Hole? && p.name in keys {
        FillOfPlains(Plains(vars[p.name]), {key}, vars);
      } else {
        assert [p][1..] == [];
        assert Fill([p], {key}, vars) == FillOne(p, {key}, vars);
      }
    }
  }

  lemma {:induction false} FillKeeps(ps: seq<Piece>, keys: set<string>, vars: map<string, string>)
    requires NonNested(ps) && keys <= vars.Keys && Clean(vars)
    ensures NonNested(Fill(ps, keys, vars))
    ensures forall p :: p in Fill(ps, keys, vars) && !p.Plain? ==> p in ps
    ensures forall p :: p in ps && !p.Plain? ==> p in Fill(ps, keys, vars) || (p.Hole? && p.name in keys)
    ensures forall p :: p in Fill(ps, keys, vars) && p.Hole? ==> p.name !in keys
  {
    if ps != [] {
      var p, rest := ps[0], ps[1..];
      FillKeeps(rest, keys, vars);
      var head, tail := FillOne(p, keys, vars), Fill(rest, keys, vars);
      assert p == Open ==> Close !in rest;
      assert forall i :: 0 <= i < |head| ==> Tidy(head[i]) && (head[i] == Open ==> p == Open);
      assert forall i :: 0 <= i < |tail| ==> tail[i] in tail;
      assert forall i, j :: 0 <= i < j < |head + tail| && (head + tail)[i] == Open ==> (head + tail)[j] != Close;
      assert ps == [p] + rest;
    }
  }

  function KeysOf(order: seq<string>): set<string> {
    set k | k in order
  }

  /** Replacing key after key, in any order, comes to filling all of them at once. */
  lemma {:induction false} ReplaceAllFills(ps: seq<Piece>, order: seq<string>, vars: map<string, string>)
    requires NonNested(ps) && Clean(vars) && forall k :: k in order ==> k in vars
    ensures KeysOf(order) <= vars.Keys
    ensures ReplaceAll(Flat(ps), order, vars) == Flat(Fill(ps, KeysOf(order), vars))
  {
    if order == [] {
      FillNothing(ps, vars);
      assert KeysOf(order) == {};
    } else {
      var before, last := order[..|order| - 1], order[|order| - 1];
      var keys := KeysOf(before);
      ReplaceAllFills(ps, before, vars);
      FillKeeps(ps, keys, vars);
      ReplaceFills(Fill(ps, keys, vars), last, vars);
      FillOneMore(ps, keys, last, vars);
      KeysOfOneMore(order);
    }
  }

  lemma {:induction false} KeysOfOneMore(order: seq<string>)
    requires order != []
    ensures KeysOf(order) == KeysOf(order[..|order| - 1]) + {order[|order| - 1]}
  {
  }

  lemma {:induction false} FillNothing(ps: seq<Piece>, vars: map<string, string>)
    ensures Fill(ps, {}, vars) == ps
  {
    if ps != [] {
      FillNothing(ps[1..], vars);
    }
  }

  // ---------- Failing exactly on an unknown placeholder ----------

  /** With no stray brace opening before one closes, only a placeholder left over looks unfilled. */
  lemma {:induction false} UnfilledIffHole(ps: seq<Piece>)
    requires NonNested(ps)
    ensures LooksUnfilled(Flat(ps)) <==> Holes(ps) != {}
    ensures '}' in Flat(ps) ==> Close in ps || Holes(ps) != {}
    ensures '{' in Flat(ps) ==> Open in ps || Holes(ps) != {}
  {
    if ps != [] {
      var p, rest := ps[0], ps[1..];
      UnfilledIffHole(rest);
      assert ps == [p] + rest;
      assert p.Hole? ==> p.name in Holes(ps);
      assert Holes(rest) <= Holes(ps);
      assert !p.Hole? ==> Holes(ps) == Holes(rest);
      if p.Hole? {
        var s := Flat(ps);
        assert s[0] == '{' && s[|p.name| + 1] == '}';
      } else {
        UnfilledCons(Text(p)[0], Flat(rest));
        assert Text(p) == [Text(p)[0]];
      }
    }
  }

  lemma {:induction false} UnfilledCons(c: char, r: string)
    ensures LooksUnfilled([c] + r) <==> LooksUnfilled(r) || (c == '{' && '}' in r)
  {
    var s := [c] + r;
    if LooksUnfilled(r) {
      var i, j :| 0 <= i < j < |r| && r[i] == '{' && r[j] == '}';
      assert s[i + 1] == '{' && s[j + 1] == '}';
    }
    if c == '{' && '}' in r {
      var j :| 0 <= j < |r| && r[j] == '}';
      assert s[0] == '{' && s[j + 1] == '}';
    }
    if LooksUnfilled(s) {
      var i, j :| 0 <= i < j < |s| && s[i] == '{' && s[j] == '}';
      assert r[j - 1] == '}';
      assert i > 0 ==> r[i - 1] == '{';
    }
  }

  /** Which orders of the keys a hash map may yield: each key once. */
  ghost predicate Lists(order: seq<string>, vars: map<string, string>) {
    && (forall k :: k in order <==> k in vars)
    && forall i, j :: 0 <= i < j < |order| ==> order[i] != order[j]
  }

  lemma {:induction false} HolesLeft(ps: seq<Piece>, vars: map<string, string>)
    requires NonNested(ps) && Clean(vars)
    ensures NonNested(Fill(ps, vars.Keys, vars))
    ensures Holes(Fill(ps, vars.Keys, vars)) == {} <==> Holes(ps) <= vars.Keys
  {
    FillKeeps(ps, vars.Keys, vars);
    var filled := Fill(ps, vars.Keys, vars);
    forall n | n in Holes(ps) && n !in vars ensures n in Holes(filled) {
      assert Hole(n) in filled;
    }
  }

  /**
    For every order of the variables the rendered argument is the simultaneous
    substitution, and rendering fails exactly when a placeholder is unknown.
   */
  lemma {:induction false} RenderIsSubstitution(arg: string, order: seq<string>, vars: map<string, string>)
    requires NonNested(Parse(arg)) && Clean(vars) && forall k :: k in order <==> k in vars
    ensures RenderArg(arg, order, vars) == Substituted(arg, vars)
  {
    var ps := Parse(arg);
    FlatOfParse(arg);
    ReplaceAllFills(ps, order, vars);
    assert KeysOf(order) == vars.Keys;
    HolesLeft(ps, vars);
    UnfilledIffHole(Fill(ps, vars.Keys, vars));
  }

  // ---------- And in no other case ----------

  lemma {:induction false} FlatAround(before: seq<Piece>, p: Piece, after: seq<Piece>)
    ensures Flat(before + ([p] + after)) == Flat(before) + (Text(p) + Flat(after))
  {
    FlatJoin(before, [p] + after);
    FlatJoin([p], after);
    FlatOne(p);
  }

  lemma {:induction false} BracesLookUnfilled(u: string, mid: string, v: string)
    ensures LooksUnfilled(u + ("{" + (mid + ("}" + v))))
  {
    var s := u + ("{" + (mid + ("}" + v)));
    assert s[|u|] == '{' && s[|u| + 1 + |mid|] == '}';
  }

  /** A stray brace that opens before one closes looks unfilled. */
  lemma {:induction false} NestedLooksUnfilled(a: seq<Piece>, b: seq<Piece>, c: seq<Piece>)
    ensures LooksUnfilled(Flat(a + ([Open] + (b + ([Close] + c)))))
  {
    FlatAround(b, Close, c);
    FlatAround(a, Open, b + ([Close] + c));
    BracesLookUnfilled(Flat(a), Flat(b), Flat(c));
  }

  /** Filling leaves stray braces where they are. */
  lemma {:induction false} FillKeepsNesting(ps: seq<Piece>, i: nat, j: nat, keys: set<string>,
                                            vars: map<string, string>)
    requires keys <= vars.Keys && i < j < |ps| && ps[i] == Open && ps[j] == Close
    ensures LooksUnfilled(Flat(Fill(ps, keys, vars)))
  {
    var a, b, c := ps[..i], ps[i + 1..j], ps[j + 1..];
    var a', b', c' := Fill(a, keys, vars), Fill(b, keys, vars), Fill(c, keys, vars);
    assert ps == a + ([Open] + (b + ([Close] + c)));
    FillJoin(a, [Open] + (b + ([Close] + c)), keys, vars);
    FillJoin(b, [Close] + c, keys, vars);
    assert ([Open] + (b + ([Close] + c)))[1..] == b + ([Close] + c) && ([Close] + c)[1..] == c;
    assert Fill(ps, keys, vars) == a' + ([Open] + (b' + ([Close] + c')));
    NestedLooksUnfilled(a', b', c');
  }

  lemma {:induction false} HitIsBefore(u: string, rest: string, key: string)
    requires u != "" && rest != "" && rest[0] == '{' && BraceFree(key) && StartsWith(u + rest, Pat(key))
    ensures |Pat(key)| <= |u|
  {
    var s, pat := u + rest, Pat(key);
    assert s[|u|] == '{';
    assert forall i :: 0 < i < |pat| - 1 ==> pat[i] == key[i - 1];
    assert forall i :: 0 < i < |pat| ==> pat[i] != '{';
    assert forall i :: 0 <= i < |pat| ==> s[..|pat|][i] == s[i];
  }

  /** A placeholder of another name is still there after a key was replaced. */
  lemma {:induction false} ReplaceKeepsHole(u: string, name: string, v: string, key: string, to: string)
    returns (u': string, v': string)
    requires BraceFree(name) && BraceFree(key) && name != key
    ensures Replace(u + (Pat(name) + v), Pat(key), to) == u' + (Pat(name) + v')
    decreases |u|
  {
    var s, pat := u + (Pat(name) + v), Pat(key);
    if u == "" {
      ReplaceMissesHole(name, v, key, to);
      assert s == Pat(name) + v;
      u', v' := "", Replace(v, pat, to);
    } else if StartsWith(s, pat) {
      HitIsBefore(u, Pat(name) + v, key);
      assert s[|pat|..] == u[|pat|..] + (Pat(name) + v);
      var u1, v1 := ReplaceKeepsHole(u[|pat|..], name, v, key, to);
      u', v' := to + u1, v1;
    } else {
      assert s[1..] == u[1..] + (Pat(name) + v);
      var u1, v1 := ReplaceKeepsHole(u[1..], name, v, key, to);
      u', v' := [s[0]] + u1, v1;
    }
  }

  lemma {:induction false} ReplaceAllKeepsHole(u: string, name: string, v: string, order: seq<string>,
                                               vars: map<string, string>) returns (u': string, v': string)
    requires BraceFree(name) && Clean(vars) && name !in vars && forall k :: k in order ==> k in vars
    ensures ReplaceAll(u + (Pat(name) + v), order, vars) == u' + (Pat(name) + v')
    decreases order
  {
    if order == [] {
      u', v' := u, v;
    } else {
      var last := order[|order| - 1];
      var u1, v1 := ReplaceAllKeepsHole(u, name, v, order[..|order| - 1], vars);
      u', v' := ReplaceKeepsHole(u1, name, v1, last, vars[last]);
    }
  }

  /** An unknown placeholder is refused whatever surrounds it. */
  lemma {:induction false} UnknownIsRefused(arg: string, order: seq<string>, vars: map<string, string>, name: string)
    requires Clean(vars) && (forall k :: k in order ==> k in vars) && name in Holes(Parse(arg)) && name !in vars
    ensures RenderArg(arg, order, vars) == None
  {
    FlatOfParse(arg);
    var u, v := HoleIsThere(Parse(arg), name);
    var u', v' := ReplaceAllKeepsHole(u, name, v, order, vars);
    HoleLooksUnfilled(u', name, v');
  }

  lemma {:induction false} HoleLooksUnfilled(u: string, name: string, v: string)
    ensures LooksUnfilled(u + (Pat(name) + v))
  {
    assert Pat(name) + v == "{" + (name + ("}" + v));
    BracesLookUnfilled(u, name, v);
  }

  lemma {:induction false} HoleIsThere(ps: seq<Piece>, name: string) returns (u: string, v: string)
    requires name in Holes(ps) && forall i :: 0 <= i < |ps| ==> Tidy(ps[i])
    ensures BraceFree(name) && Flat(ps) == u + (Pat(name) + v)
  {
    var i :| 0 <= i < |ps| && ps[i] == Hole(name);
    var before, after := ps[..i], ps[i + 1..];
    assert ps == before + ([Hole(name)] + after);
    FlatAround(before, Hole(name), after);
    u, v := Flat(before), Flat(after);
  }

  /** Where stray braces nest, the substitution itself looks unfilled, so rendering never gives it. */
  lemma {:induction false} NestedIsNeverSubstituted(arg: string, order: seq<string>, vars: map<string, string>)
    requires !NonNested(Parse(arg)) && Holes(Parse(arg)) <= vars.Keys && forall k :: k in order ==> k in vars
    ensures RenderArg(arg, order, vars) != Substituted(arg, vars)
  {
    var ps := Parse(arg);
    FlatOfParse(arg);
    var i, j :| 0 <= i < j < |ps| && ps[i] == Open && ps[j] == Close;
    FillKeepsNesting(ps, i, j, vars.Keys, vars);
  }

  /** Rendering is the simultaneous substitution exactly when no stray braces nest, or a placeholder is unknown. */
  lemma {:induction false} RenderIsSubstitutionIff(arg: string, order: seq<string>, vars: map<string, string>)
    requires Clean(vars) && forall k :: k in order <==> k in vars
    ensures RenderArg(arg, order, vars) == Substituted(arg, vars) <==>
            NonNested(Parse(arg)) || !(Holes(Parse(arg)) <= vars.Keys)
  {
    if NonNested(Parse(arg)) {
      RenderIsSubstitution(arg, order, vars);
    } else if Holes(Parse(arg)) <= vars.Keys {
      NestedIsNeverSubstituted(arg, order, vars);
    } else {
      var name :| name in Holes(Parse(arg)) && name !in vars;
      UnknownIsRefused(arg, order, vars, name);
    }
  }

  lemma {:induction false} KeysCanBeListed(vars: map<string, string>) returns (order: seq<string>)
    ensures Lists(order, vars)
    decreases |vars|
  {
    if vars == map[] {
      order := [];
    } else {
      var k :| k in vars;
      assert |vars - {k}| < |vars| by {
        assert vars == (vars - {k})[k := vars[k]];
      }
      var rest := KeysCanBeListed(vars - {k});
      order := [k] + rest;
      assert k !in rest;
    }
  }

  lemma {:induction false} HolesToNothing(arg: string) returns (vars: map<string, string>)
    ensures Clean(vars) && vars.Keys == Holes(Parse(arg))
  {
    FlatOfParse(arg);
    vars := map k | k in Holes(Parse(arg)) :: "";
  }

  lemma {:induction false} NestedFails(arg: string) returns (vars: map<string, string>, order: seq<string>)
    requires !NonNested(Parse(arg))
    ensures Clean(vars) && Lists(order, vars) && RenderArg(arg, order, vars) != Substituted(arg, vars)
  {
    vars := HolesToNothing(arg);
    order := KeysCanBeListed(vars);
    NestedIsNeverSubstituted(arg, order, vars);
  }

  ghost predicate AlwaysSubstitutes(arg: string) {
    forall vars, order :: Clean(vars) && Lists(order, vars) ==> RenderArg(arg, order, vars) == Substituted(arg, vars)
  }

  /** So the templates that mean what they say under every order of every clean map of variables are these. */
  lemma {:induction false} AlwaysSubstitutesIff(arg: string)
    ensures AlwaysSubstitutes(arg) <==> NonNested(Parse(arg))
  {
    if NonNested(Parse(arg)) {
      forall vars, order | Clean(vars) && Lists(order, vars)
        ensures RenderArg(arg, order, vars) == Substituted(arg, vars) {
        RenderIsSubstitution(arg, order, vars);
      }
    } else {
      var vars, order := NestedFails(arg);
    }
  }

  lemma {:induction false} ReplaceAllTwo(s: string, k: string, m: string, vars: map<string, string>)
    requires k in vars && m in vars
    ensures ReplaceAll(s, [k, m], vars) == Replace(Replace(s, Pat(k), vars[k]), Pat(m), vars[m])
  {
    assert [k, m][..1] == [k] && [k][..0] == [];
    assert ReplaceAll(s, [k], vars) == Replace(ReplaceAll(s, [], vars), Pat(k), vars[k]);
  }

  lemma {:induction false} EmptyReplaces(key: string, to: string)
    ensures Replace("", Pat(key), to) == ""
    ensures Replace("}", Pat(key), to) == "}"
  {
  }

  /** A placeholder with a stray brace on either side. */
  function Nested(k: string, m: string): string {
    "{" + (k + (Pat(m) + "}"))
  }

  lemma {:induction false} NotThere(k: string, rest: string, key: string)
    requires BraceFree(k) && BraceFree(key) && rest != "" && rest[0] == '{'
    ensures !StartsWith(k + rest, key + "}")
  {
    var s, pat := k + rest, key + "}";
    var i := if |k| <= |key| then |k| else |key|;
    assert s[i] != pat[i];
    assert |pat| <= |s| ==> s[..|pat|][i] == s[i];
  }

  /** Replacing either key in `{k{m}}`: the inner one is found, the outer one is not. */
  lemma {:induction false} NestedReplaces(k: string, m: string, key: string, to: string)
    requires BraceFree(k) && BraceFree(m) && BraceFree(key)
    ensures Replace(Nested(k, m), Pat(key), to) == if key == m then "{" + (k + (to + "}")) else Nested(k, m)
  {
    var inner := Pat(m) + "}";
    NotThere(k, inner, key);
    ReplaceMissesOpen(k + inner, key, to);
    ReplaceSkips(k, inner, key, to);
    EmptyReplaces(key, to);
    if key == m {
      ReplaceHits(key, "}", to);
    } else {
      ReplaceMissesHole(m, "}", key, to);
    }
  }

  /**
    A placeholder inside braces is filled or refused as the order happens to fall: `{k{m}}` with
    m empty, for any k and m.
   */
  lemma {:induction false} NestedDependsOnOrder(k: string, m: string, v: string)
    requires BraceFree(k) && BraceFree(m) && BraceFree(v) && k != m
    ensures var vars := map[k := v, m := ""];
            RenderArg(Nested(k, m), [m, k], vars) == Some(v) && RenderArg(Nested(k, m), [k, m], vars) == None
  {
    var vars, left := map[k := v, m := ""], Pat(k);
    ReplaceAllTwo(Nested(k, m), m, k, vars);
    ReplaceAllTwo(Nested(k, m), k, m, vars);
    NestedReplaces(k, m, k, v);
    NestedReplaces(k, m, m, "");
    assert "{" + (k + ("" + "}")) == left == left + "";
    ReplaceHits(k, "", v);
    EmptyReplaces(k, v);
    assert left[0] == '{' && left[|k| + 1] == '}';
    assert v + "" == v;
  }

  /** So is a placeholder that comes in with a value. */
  lemma {:induction false} BracesInValueDependOnOrder(k: string, m: string, v: string)
    requires BraceFree(k) && BraceFree(m) && BraceFree(v) && k != m
    ensures var vars := map[k := Pat(m), m := v];
            RenderArg(Pat(k), [k, m], vars) == Some(v) && RenderArg(Pat(k), [m, k], vars) == None
  {
    var vars, left := map[k := Pat(m), m := v], Pat(m);
    ReplaceAllTwo(Pat(k), k, m, vars);
    ReplaceAllTwo(Pat(k), m, k, vars);
    assert Pat(k) + "" == Pat(k) && Pat(m) + "" == Pat(m) && v + "" == v;
    ReplaceHits(k, "", Pat(m));
    EmptyReplaces(k, Pat(m));
    ReplaceHits(m, "", v);
    EmptyReplaces(m, v);
    ReplaceMissesHole(k, "", m, v);
    assert left[0] == '{' && left[|m| + 1] == '}';
  }

  // ---------- The command line ----------

  function RenderedAll(argv: seq<string>, vars: map<string, string>): Option<seq<string>> {
    if argv == [] then Some([])
    else
      var before, last := RenderedAll(argv[..|argv| - 1], vars), Substituted(argv[|argv| - 1], vars);
      if before.None? || last.None? then None else Some(before.value + [last.value])
  }

  method RenderOne(arg: string, vars: map<string, string>, order: seq<string>) returns (out: Option<string>)
    requires forall k :: k in order ==> k in vars
    ensures out == RenderArg(arg, order, vars)
  {
    var rendered := arg;
    for i := 0 to |order|
      invariant rendered == ReplaceAll(arg, order[..i], vars)
    {
      assert order[..i + 1][..i] == order[..i];
      rendered := Replace(rendered, Pat(order[i]), vars[order[i]]);
    }
    assert order[..|order|] == order;
    return if LooksUnfilled(rendered) then None else Some(rendered);
  }

  /** Templates and variables on which the order of the variables is of no consequence. */
  predicate Plainly(argv: seq<string>, vars: map<string, string>) {
    Clean(vars) && forall i :: 0 <= i < |argv| ==> NonNested(Parse(argv[i]))
  }

  /** The whole command line: the simultaneous substitution of each argument, or a refusal if any is refused. */
  method Render(argv: seq<string>, vars: map<string, string>, order: seq<string>) returns (out: Option<seq<string>>)
    requires Lists(order, vars)
    ensures out.None? <==> exists i :: 0 <= i < |argv| && RenderArg(argv[i], order, vars).None?
    ensures out.Some? ==> |out.value| == |argv| && forall i :: 0 <= i < |argv| ==>
              RenderArg(argv[i], order, vars) == Some(out.value[i])
    ensures Plainly(argv, vars) ==> out == RenderedAll(argv, vars)
  {
    var rendered := [];
    for n := 0 to |argv|
      invariant |rendered| == n
      invariant forall i :: 0 <= i < n ==> RenderArg(argv[i], order, vars) == Some(rendered[i])
    {
      var one := RenderOne(argv[n], vars, order);
      if one.None? {
        if Plainly(argv, vars) {
          RenderIsSubstitution(argv[n], order, vars);
          RenderedAllFails(argv, vars, n);
        }
        return None;
      }
      rendered := rendered + [one.value];
    }
    if Plainly(argv, vars) {
      forall i | 0 <= i < |argv| ensures Substituted(argv[i], vars) == Some(rendered[i]) {
        RenderIsSubstitution(argv[i], order, vars);
      }
      RenderedAllIs(argv, vars, rendered);
    }
    return Some(rendered);
  }

  lemma {:induction false} RenderedAllIs(argv: seq<string>, vars: map<string, string>, out: seq<string>)
    requires |out| == |argv| && forall i :: 0 <= i < |argv| ==> Substituted(argv[i], vars) == Some(out[i])
    ensures RenderedAll(argv, vars) == Some(out)
  {
    if argv != [] {
      var n := |argv| - 1;
      var before, last := argv[..n], Substituted(argv[n], vars);
      forall i | 0 <= i < n ensures Substituted(before[i], vars) == Some(out[..n][i]) {
        assert before[i] == argv[i];
      }
      RenderedAllIs(before, vars, out[..n]);
      assert last == Some(out[n]);
      assert out == out[..n] + [out[n]];
    }
  }

  lemma {:induction false} RenderedAllFails(argv: seq<string>, vars: map<string, string>, n: nat)
    requires n < |argv| && Substituted(argv[n], vars).None?
    ensures RenderedAll(argv, vars).None?
  {
    if n < |argv| - 1 {
      RenderedAllFails(argv[..|argv| - 1], vars, n);
    }
  }
}
