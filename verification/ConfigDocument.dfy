/**
  The configuration file as a tree of tables, edits by path, and what is written of it. A
  table made only to hold what is beneath it is implicit, as is one the file implies by a
  longer header: it is written for what it holds, and not at all when it holds nothing.
  Comments, order and formatting are not part of the tree.
 */
module ConfigDocument {
  import opened Options

  datatype Value =
    | Bool(b: bool)
    | Text(s: string)
    | Int(i: int)
    | Float(f: real)
    | Array(items: seq<Value>)
    | Other(text: string)

  datatype Item =
    | Val(v: Value)
    | Table(entries: map<string, Item>, implicit: bool)
    | Rows(rows: seq<map<string, Item>>)

  type Entries = map<string, Item>

  type Path = seq<string>

  datatype Json =
    | Null
    | JBool(b: bool)
    | JText(s: string)
    | JInt(i: int)
    | JFloat(f: real)
    | JArray(items: seq<Json>)
    | JObject(fields: map<string, Json>)

  /** A JSON value as the file can hold it: not null, not an object, and integers beyond 64 bits as floats. */
  function ToValue(j: Json): Option<Value> {
    match j
    case Null => None
    case JObject(_) => None
    case JBool(b) => Some(Bool(b))
    case JText(s) => Some(Text(s))
    case JInt(i) => if -0x8000_0000_0000_0000 <= i < 0x8000_0000_0000_0000 then Some(Int(i)) else Some(Float(i as real))
    case JFloat(f) => Some(Float(f))
    case JArray(items) =>
      if forall i :: 0 <= i < |items| ==> ToValue(items[i]).Some?
      then Some(Array(seq(|items|, i requires 0 <= i < |items| && ToValue(items[i]).Some? => ToValue(items[i]).value)))
      else None
  }

  /** A stored value as JSON again. */
  function ToJson(v: Value): Json {
    match v
    case Bool(b) => JBool(b)
    case Text(s) => JText(s)
    case Int(i) => JInt(i)
    case Float(f) => JFloat(f)
    case Array(items) => JArray(seq(|items|, i requires 0 <= i < |items| => ToJson(items[i])))
    case Other(text) => JText(text)
  }

  /** Nothing in it is null, an object, or an integer beyond 64 bits. */
  predicate Storable(j: Json) {
    match j
    case Null => false
    case JObject(_) => false
    case JInt(i) => -0x8000_0000_0000_0000 <= i < 0x8000_0000_0000_0000
    case JArray(items) => forall i :: 0 <= i < |items| ==> Storable(items[i])
    case _ => true
  }

  /** A value comes back as it went in, lists of lists included, exactly when it is storable. */
  lemma {:induction false} ValuesReadBackIff(j: Json)
    ensures ToValue(j).Some? && ToJson(ToValue(j).value) == j <==> Storable(j)
  {
    if j.JArray? {
      forall i | 0 <= i < |j.items|
        ensures ToValue(j.items[i]).Some? && ToJson(ToValue(j.items[i]).value) == j.items[i] <==> Storable(j.items[i]) {
        ValuesReadBackIff(j.items[i]);
      }
      if ToValue(j).Some? {
        var back := ToJson(ToValue(j).value).items;
        assert |back| == |j.items|;
        assert forall i :: 0 <= i < |back| ==> back[i] == ToJson(ToValue(j.items[i]).value);
        if Storable(j) {
          assert back == j.items;
        } else {
          var i :| 0 <= i < |j.items| && !Storable(j.items[i]);
          assert back[i] != j.items[i];
        }
      }
    }
  }

  // ---------- Reading and editing by path ----------

  function Get(t: Entries, q: Path): Option<Item>
    requires q != []
    decreases |q|
  {
    if q[0] !in t then None
    else if |q| == 1 then Some(t[q[0]])
    else if t[q[0]].Table? then Get(t[q[0]].entries, q[1..])
    else None
  }

  /** The table at a path, one that is missing being empty; none if the path crosses something else. */
  function TableAt(t: Entries, path: Path): Option<Entries>
    decreases |path|
  {
    if path == [] then Some(t)
    else if path[0] !in t then Some(map[])
    else if t[path[0]].Table? then TableAt(t[path[0]].entries, path[1..])
    else None
  }

  /** The table at a path edited, missing tables on the way being made, and made implicit. */
  function EditAt(t: Entries, path: Path, edit: Entries -> Option<Entries>): Option<Entries>
    decreases |path|
  {
    if path == [] then edit(t)
    else if path[0] in t && !t[path[0]].Table? then None
    else
      var known := path[0] in t;
      var inner := EditAt(if known then t[path[0]].entries else map[], path[1..], edit);
      if inner.None? then None else Some(t[path[0] := Table(inner.value, if known then t[path[0]].implicit else true)])
  }

  predicate IsPrefix(p: Path, q: Path) {
    |p| <= |q| && q[..|p|] == p
  }

  /** A value or a list of tables, as opposed to a table or nothing. */
  function Leaf(t: Entries, q: Path): Option<Item>
    requires q != []
  {
    var item := Get(t, q);
    if item.Some? && item.value.Table? then None else item
  }

  /** Something that is written whatever is or is not beneath it: a value, a list with rows, a table with a header. */
  predicate Anchor(t: Entries, q: Path)
    requires q != []
  {
    var item := Get(t, q);
    item.Some? && match item.value
                  case Val(_) => true
                  case Rows(rows) => rows != []
                  case Table(_, implicit) => !implicit
  }

  lemma {:induction false} EditSucceedsIff(t: Entries, path: Path, edit: Entries -> Option<Entries>)
    ensures EditAt(t, path, edit).Some? <==> TableAt(t, path).Some? && edit(TableAt(t, path).value).Some?
    decreases |path|
  {
    if path != [] && path[0] in t && t[path[0]].Table? {
      EditSucceedsIff(t[path[0]].entries, path[1..], edit);
    } else if path != [] && path[0] !in t {
      EditSucceedsIff(map[], path[1..], edit);
      EmptyTableAt(path[1..]);
    }
  }

  lemma {:induction false} EmptyTableAt(path: Path)
    ensures TableAt(map[], path) == Some(map[])
  {
  }

  /** Below the path there is what the edit made of the table. */
  lemma {:induction false} EditPuts(t: Entries, path: Path, edit: Entries -> Option<Entries>, q: Path)
    requires EditAt(t, path, edit).Some? && q != []
    ensures TableAt(t, path).Some? && edit(TableAt(t, path).value).Some?
    ensures Get(EditAt(t, path, edit).value, path + q) == Get(edit(TableAt(t, path).value).value, q)
    ensures Get(t, path + q) == Get(TableAt(t, path).value, q)
    decreases |path|
  {
    if path == [] {
      assert path + q == q;
    } else {
      assert (path + q)[0] == path[0] && (path + q)[1..] == path[1..] + q;
      EditPuts(if path[0] in t then t[path[0]].entries else map[], path[1..], edit, q);
      if path[0] !in t { EmptyTableAt(path[1..]); }
    }
  }

  function Entry(e: Entries, k: string): Option<Item> {
    if k in e then Some(e[k]) else None
  }

  /** Below the path, under a key the edit leaves alone, nothing changes either. */
  lemma {:induction false} EditLeavesKey(t: Entries, path: Path, edit: Entries -> Option<Entries>, q: Path)
    requires EditAt(t, path, edit).Some? && |q| > |path| && IsPrefix(path, q)
    requires TableAt(t, path).Some? && edit(TableAt(t, path).value).Some?
    requires Entry(edit(TableAt(t, path).value).value, q[|path|]) == Entry(TableAt(t, path).value, q[|path|])
    ensures Get(EditAt(t, path, edit).value, q) == Get(t, q)
  {
    var rest := q[|path|..];
    assert q == path + rest && rest[0] == q[|path|];
    EditPuts(t, path, edit, rest);
    SameBelow(TableAt(t, path).value, edit(TableAt(t, path).value).value, rest);
  }

  /** Off the path nothing changes at all; on it, at most missing tables are made, and those are no anchors. */
  lemma {:induction false} EditFrames(t: Entries, path: Path, edit: Entries -> Option<Entries>, q: Path)
    requires EditAt(t, path, edit).Some? && q != []
    requires |q| <= |path| || !IsPrefix(path, q)
    ensures Leaf(EditAt(t, path, edit).value, q) == Leaf(t, q)
    ensures !IsPrefix(q, path) ==> Get(EditAt(t, path, edit).value, q) == Get(t, q)
    ensures Anchor(EditAt(t, path, edit).value, q) <==> Anchor(t, q)
    decreases |path|
  {
    assert IsPrefix(path[..0], q);
    if path != [] && q[0] == path[0] {
      assert path == [path[0]] + path[1..] && q == [q[0]] + q[1..];
      if |q| > 1 {
        assert IsPrefix(q[1..], path[1..]) ==> IsPrefix(q, path);
        assert IsPrefix(path[1..], q[1..]) ==> IsPrefix(path, q);
        EditFrames(if path[0] in t then t[path[0]].entries else map[], path[1..], edit, q[1..]);
      } else {
        assert IsPrefix(q, path);
      }
    }
  }

  lemma SameBelow(t: Entries, t': Entries, q: Path)
    requires q != [] && (q[0] in t' <==> q[0] in t) && (q[0] in t ==> t'[q[0]] == t[q[0]])
    ensures Get(t', q) == Get(t, q)
  {
  }

  // ---------- What is written ----------

  /** An implicit table with nothing to show is not written, nor is a list without rows. */
  predicate Shown(item: Item) {
    match item
    case Val(_) => true
    case Rows(rows) => rows != []
    case Table(entries, implicit) => !implicit || exists k :: k in entries && Shown(entries[k])
  }

  /** An item as the file has it; a table keeps no header of its own if it was implicit and holds no value. */
  function WrittenItem(item: Item): Item {
    match item
    case Table(entries, implicit) =>
      Table(map k | k in entries && Shown(entries[k]) :: WrittenItem(entries[k]),
            implicit && forall k :: k in entries ==> !entries[k].Val?)
    case _ => item
  }

  /** The document as the file has it. */
  function Written(t: Entries): Entries {
    map k | k in t && Shown(t[k]) :: WrittenItem(t[k])
  }

  lemma {:induction false} GetBelow(t: Entries, q: Path, k: string)
    requires q != []
    ensures Get(t, q + [k])
            == if Get(t, q).Some? && Get(t, q).value.Table? then Entry(Get(t, q).value.entries, k) else None
    decreases |q|
  {
    assert (q + [k])[0] == q[0] && (q + [k])[1..] == q[1..] + [k];
    if |q| == 1 {
      assert q[1..] + [k] == [k];
    } else if q[0] in t && t[q[0]].Table? {
      GetBelow(t[q[0]].entries, q[1..], k);
    }
  }

  lemma {:induction false} ShownFromBelow(t: Entries, q: Path)
    requires q != [] && Get(t, q).Some? && Shown(Get(t, q).value)
    ensures q[0] in t && Shown(t[q[0]])
    decreases |q|
  {
    if |q| > 1 {
      ShownFromBelow(t[q[0]].entries, q[1..]);
    }
  }

  /** What the file has at a path: the item there, if it is shown. */
  lemma {:induction false} WrittenGet(t: Entries, q: Path)
    requires q != []
    ensures Get(Written(t), q)
            == if Get(t, q).Some? && Shown(Get(t, q).value) then Some(WrittenItem(Get(t, q).value)) else None
    decreases |q|
  {
    if |q| > 1 && q[0] in t && t[q[0]].Table? {
      var inner := t[q[0]].entries;
      WrittenGet(inner, q[1..]);
      if Shown(t[q[0]]) {
        assert Written(t)[q[0]].entries == Written(inner);
      } else if Get(inner, q[1..]).Some? && Shown(Get(inner, q[1..]).value) {
        ShownFromBelow(t, q);
      }
    }
  }

  lemma {:induction false} AnchorIsShown(t: Entries, q: Path, r: Path)
    requires q != [] && IsPrefix(q, r) && Get(t, r).Some? && Shown(Get(t, r).value)
    ensures Get(t, q).Some? && Shown(Get(t, q).value)
    decreases |r| - |q|
  {
    if |q| == |r| {
      assert q == r;
    } else {
      var up := r[..|r| - 1];
      assert r == up + [r[|r| - 1]] && up[..|q|] == r[..|q|];
      GetBelow(t, up, r[|r| - 1]);
      AnchorIsShown(t, q, up);
    }
  }

  lemma {:induction false} ShownHasAnchor(t: Entries, q: Path, item: Item) returns (r: Path)
    requires q != [] && Get(t, q) == Some(item) && Shown(item)
    ensures r != [] && IsPrefix(q, r) && Anchor(t, r)
    decreases item
  {
    r := q;
    if !Anchor(t, q) {
      var k :| k in item.entries && Shown(item.entries[k]);
      GetBelow(t, q, k);
      r := ShownHasAnchor(t, q + [k], item.entries[k]);
      assert r[..|q|] == r[..|q| + 1][..|q|] == q;
    }
  }

  ghost predicate AnchorBelow(t: Entries, q: Path) {
    exists r :: r != [] && IsPrefix(q, r) && Anchor(t, r)
  }

  /** The file has something at a path exactly when there is an anchor at or below it. */
  lemma {:induction false} WrittenIff(t: Entries, q: Path)
    requires q != []
    ensures Get(Written(t), q).Some? <==> AnchorBelow(t, q)
  {
    WrittenGet(t, q);
    if Get(t, q).Some? && Shown(Get(t, q).value) {
      var r := ShownHasAnchor(t, q, Get(t, q).value);
    }
    if r :| r != [] && IsPrefix(q, r) && Anchor(t, r) {
      AnchorIsShown(t, q, r);
    }
  }

  /** Values and lists with rows are written as they are. */
  lemma {:induction false} WrittenLeaf(t: Entries, q: Path)
    requires q != []
    ensures Leaf(Written(t), q) == if Leaf(t, q) == Some(Rows([])) then None else Leaf(t, q)
  {
    WrittenGet(t, q);
  }
}
