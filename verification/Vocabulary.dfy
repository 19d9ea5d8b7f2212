/**
  Moving stored automations to the device vocabulary: a recursive rewrite of JSON trees,
  one phase at a time. A tree is settled when no rule of the phase applies anywhere in
  it; one walk settles every tree, and a settled tree is left as it is.
 */
module Vocabulary {
  import opened Basics
  import opened Options

  datatype Json =
    | Null
    | Bool(b: bool)
    | Num(n: real)
    | Str(s: string)
    | Arr(items: seq<Json>)
    | Obj(fields: map<string, Json>)

  datatype Phase = Now | Plugins | Core

  datatype Device = Device(plugin: string, kind: string)

  /** What one run of the script goes by; the order it visits the set of verbs in is any. */
  datatype Setup = Setup(phase: Phase, devices: map<string, Device>, verbs: seq<string>)

  // ---------- The tables ----------

  type Renames = seq<(string, string)>

  function AnyKindRenames(plugin: string): Renames {
    if plugin == "plugin.yolink" then [("humidity_pct", "humidity"), ("battery", "battery_pct"), ("door_open", "open")]
    else if plugin == "plugin.zwave" then
      [("battery", "battery_pct"), ("contact_open", "open"), ("tamper", "tampered"),
       ("co2_ppm", "co2"), ("mode", "hvac_mode")]
    else if plugin == "plugin.lutron" || plugin == "plugin.caseta" then [("occupancy", "occupied")]
    else if plugin == "plugin.hue" then [("illuminance_lux", "illuminance"), ("duration_ms", "transition_ms")]
    else if plugin == "plugin.sonos" then
      [("title", "media_title"), ("artist", "media_artist"), ("album", "media_album"),
       ("position_secs", "media_position"), ("duration_secs", "media_duration")]
    else if plugin == "plugin.thermostat" then
      [("current_temperature", "temperature"), ("mode", "hvac_mode"), ("call_for", "hvac_action")]
    else []
  }

  function KindRenames(d: Device): Renames {
    if d.plugin == "plugin.lutron" && d.kind == "scene" then [("on", "active")] else []
  }

  /** What an attribute of this device is read as now. */
  function ReadRenames(d: Device): Renames {
    AnyKindRenames(d.plugin) + KindRenames(d)
  }

  /** What it is written as: a scene is activated, never written `active`, so that one is left out. */
  function WriteRenames(d: Device): Renames {
    AnyKindRenames(d.plugin)
  }

  const WLED_KEYS: Renames :=
    [("preset", "preset_id"), ("apply_preset", "preset_id"), ("effect", "effect_id"), ("palette", "palette_id")]

  const KEY_ACTIONS: set<string> := {"activate", "raise", "lower", "stop", "execute"}

  /** No new name is an old name too. */
  predicate NoChains(table: Renames) {
    forall i, j :: 0 <= i < |table| && 0 <= j < |table| ==> table[i].0 != table[j].1
  }

  lemma TablesHaveNoChains(d: Device)
    ensures NoChains(ReadRenames(d)) && NoChains(WriteRenames(d))
    ensures NoChains(WLED_KEYS) && NoChains([("command", "action")])
  {
  }

  /** No two old names of a device become the same new one, so attributes that were told apart still are. */
  lemma ReadsStayApart(d: Device)
    ensures var t := ReadRenames(d);
            forall i, j :: 0 <= i < j < |t| ==> t[i].0 != t[j].0 && t[i].1 != t[j].1
  {
  }

  // ---------- A command ----------

  type Fields = map<string, Json>

  predicate RenameFires(st: Fields, r: (string, string)) {
    r.0 in st && r.1 !in st
  }

  function RenameOne(st: Fields, r: (string, string)): Fields {
    if RenameFires(st, r) then (st - {r.0})[r.1 := st[r.0]] else st
  }

  function Renamed(st: Fields, table: Renames): Fields {
    if table == [] then st else RenameOne(Renamed(st, table[..|table| - 1]), table[|table| - 1])
  }

  predicate LedFires(st: Fields) {
    "set_led" in st && st["set_led"].Obj? && "action" !in st
  }

  function LedAsAction(st: Fields): Fields {
    if LedFires(st) then map["action" := Str("set_led")] + st["set_led"].fields + (st - {"set_led"}) else st
  }

  predicate VerbFires(st: Fields, verb: string) {
    verb in st && st[verb] == Bool(true) && "action" !in st
  }

  function VerbAsAction(st: Fields, verb: string): Fields {
    if VerbFires(st, verb) then (st - {verb})["action" := Str(verb)] else st
  }

  function VerbsAsAction(st: Fields, verbs: seq<string>): Fields {
    if verbs == [] then st else VerbAsAction(VerbsAsAction(st, verbs[..|verbs| - 1]), verbs[|verbs| - 1])
  }

  /** Which of the rewrites of a command this phase and plugin call for. */
  datatype CommandRule = Keypad | Rename(table: Renames)

  function RuleFor(phase: Phase, d: Device): CommandRule {
    match phase
    case Now =>
      if d.plugin == "plugin.lutron" || d.plugin == "plugin.caseta" then Keypad
      else Rename(if d.plugin == "plugin.wled" then WLED_KEYS else [])
    case Plugins => Rename(WriteRenames(d))
    case Core => Rename(if d.plugin == "core.glue" then [("command", "action")] else [])
  }

  function DeviceNamed(devices: map<string, Device>, id: Json): Device {
    if id.Str? && id.s in devices then devices[id.s] else Device("", "")
  }

  function Command(su: Setup, id: Json, st: Fields): Fields {
    match RuleFor(su.phase, DeviceNamed(su.devices, id))
    case Keypad => VerbsAsAction(LedAsAction(st), su.verbs)
    case Rename(table) => Renamed(st, table)
  }

  /** Nothing of the phase applies to this command, in whatever order it is looked at. */
  predicate CommandSettled(phase: Phase, devices: map<string, Device>, id: Json, st: Fields) {
    match RuleFor(phase, DeviceNamed(devices, id))
    case Keypad => !LedFires(st) && forall verb :: verb in KEY_ACTIONS ==> !VerbFires(st, verb)
    case Rename(table) => forall i :: 0 <= i < |table| ==> !RenameFires(st, table[i])
  }

  // ---------- A node that reads an attribute ----------

  predicate Truthy(j: Json) {
    match j
    case Null => false
    case Bool(b) => b
    case Num(n) => n != 0.0
    case Str(s) => s != ""
    case Arr(items) => items != []
    case Obj(fields) => fields != map[]
  }

  predicate NamesDevice(f: Fields) {
    "device_id" in f && f["device_id"].Str?
  }

  function DeviceIds(f: Fields): Json {
    if NamesDevice(f) then Arr([f["device_id"]])
    else if "device_ids" in f && Truthy(f["device_ids"]) then f["device_ids"]
    else Arr([])
  }

  /** Indexing with zero, which works on lists and strings only. */
  function First(ids: Json): Option<Json> {
    if ids.Arr? && ids.items != [] then Some(ids.items[0])
    else if ids.Str? && ids.s != "" then Some(Str(ids.s[..1]))
    else None
  }

  predicate Reads(f: Fields) {
    Truthy(DeviceIds(f)) && "attribute" in f && f["attribute"].Str?
  }

  predicate Reviewed(attr: string) {
    || attr in {"temperature", "current_temperature", "setpoint", "target_temp", "brightness", "color_temp_mirek",
                "contact_state"}
    || StartsWith(attr, "cci_")
  }

  /** Where the script stops with an error: ids that cannot be indexed, or looked up. */
  predicate ReadRaises(phase: Phase, f: Fields) {
    Reads(f) &&
    var first := First(DeviceIds(f));
    || (first.None? && (Reviewed(f["attribute"].s) || phase == Plugins))
    || (first.Some? && phase == Plugins && (first.value.Arr? || first.value.Obj?))
  }

  function NewName(table: Renames, name: string): Option<string> {
    if table == [] then None
    else if table[|table| - 1].0 == name then Some(table[|table| - 1].1)
    else NewName(table[..|table| - 1], name)
  }

  /** The plugin whose attribute is renamed here, and its new name. */
  function Renaming(phase: Phase, devices: map<string, Device>, f: Fields): Option<(string, string)> {
    if phase != Plugins || !Reads(f) || First(DeviceIds(f)).None? then None
    else
      var d := DeviceNamed(devices, First(DeviceIds(f)).value);
      var name := NewName(ReadRenames(d), f["attribute"].s);
      if name.None? then None else Some((d.plugin, name.value))
  }

  function NewValue(plugin: string, name: string, v: Json): Json {
    if plugin == "plugin.thermostat" && name == "hvac_action" then
      if v == Str("heat") then Str("heating") else if v == Str("cool") then Str("cooling") else v
    else v
  }

  function Read(su: Setup, f: Fields): (r: Fields)
    ensures r.Keys == f.Keys
  {
    match Renaming(su.phase, su.devices, f)
    case None => f
    case Some((plugin, name)) =>
      map k | k in f :: if k == "attribute" then Str(name)
                        else if k in {"to", "from", "value"} then NewValue(plugin, name, f[k])
                        else f[k]
  }

  // ---------- The walk ----------

  const COMMAND_KEYS: set<string> := {"state", "target", "default_state"}

  predicate IsCommand(f: Fields, k: string) {
    NamesDevice(f) && k in COMMAND_KEYS && k in f && f[k].Obj?
  }

  /** A node's own rewriting, before its children are walked. */
  function Entered(su: Setup, f: Fields): (r: Fields)
    ensures r.Keys == f.Keys
  {
    var g := Read(su, f);
    map k | k in g :: if IsCommand(g, k) then Obj(Command(su, g["device_id"], g[k].fields)) else g[k]
  }

  function Walk(su: Setup, j: Json): Json
    decreases Height(j)
  {
    match j
    case Obj(f) =>
      EnteredIsLower(su, f);
      var g := Entered(su, f);
      Obj(map k | k in g :: Walk(su, g[k]))
    case Arr(items) =>
      ItemsAreLower(items);
      Arr(seq(|items|, i requires 0 <= i < |items| => Walk(su, items[i])))
    case _ => j
  }

  /** No rule of the phase applies anywhere. */
  ghost predicate Settled(phase: Phase, devices: map<string, Device>, j: Json) {
    match j
    case Obj(f) =>
      && Renaming(phase, devices, f).None?
      && (forall k :: IsCommand(f, k) ==> CommandSettled(phase, devices, f["device_id"], f[k].fields))
      && forall k :: k in f ==> Settled(phase, devices, f[k])
    case Arr(items) => forall i :: 0 <= i < |items| ==> Settled(phase, devices, items[i])
    case _ => true
  }

  // ---------- How high a tree is ----------

  ghost function MaxOf(s: set<nat>): (m: nat)
    ensures forall x :: x in s ==> x <= m
    ensures m == 0 || m in s
  {
    if s == {} then 0
    else
      var x :| x in s;
      var rest := MaxOf(s - {x});
      assert forall y :: y in s ==> y == x || y in s - {x};
      if x < rest then rest else x
  }

  ghost function Height(j: Json): nat {
    match j
    case Obj(f) => 1 + MaxOf(set k | k in f :: Height(f[k]))
    case Arr(items) => 1 + MaxOf(set i | 0 <= i < |items| :: Height(items[i]))
    case _ => 0
  }

  lemma {:induction false} FieldsAreLower(f: Fields)
    ensures forall k :: k in f ==> Height(f[k]) < Height(Obj(f))
  {
    var hs := set k | k in f :: Height(f[k]);
    forall k | k in f ensures Height(f[k]) < Height(Obj(f)) {
      assert Height(f[k]) in hs;
    }
  }

  lemma {:induction false} ItemsAreLower(items: seq<Json>)
    ensures forall i :: 0 <= i < |items| ==> Height(items[i]) < Height(Arr(items))
  {
    var hs := set i | 0 <= i < |items| :: Height(items[i]);
    forall i | 0 <= i < |items| ensures Height(items[i]) < Height(Arr(items)) {
      assert Height(items[i]) in hs;
    }
  }

  /** A command comes out no higher than it went in. */
  lemma ObjHeight(f: Fields, n: nat)
    requires forall k :: k in f ==> Height(f[k]) < n
    requires n > 0
    ensures Height(Obj(f)) <= n
  {
  }

  ghost predicate Within(st: Fields, n: nat) {
    forall k :: k in st ==> Height(st[k]) < n
  }

  lemma {:induction false} RenamedWithin(st: Fields, table: Renames, n: nat)
    requires Within(st, n)
    ensures Within(Renamed(st, table), n)
  {
    if table != [] {
      RenamedWithin(st, table[..|table| - 1], n);
    }
  }

  lemma {:induction false} VerbsWithin(st: Fields, verbs: seq<string>, n: nat)
    requires Within(st, n) && n > 0
    ensures Within(VerbsAsAction(st, verbs), n)
  {
    if verbs != [] {
      VerbsWithin(st, verbs[..|verbs| - 1], n);
    }
  }

  lemma {:induction false} CommandIsNoHigher(su: Setup, id: Json, st: Fields)
    ensures Height(Obj(Command(su, id, st))) <= Height(Obj(st))
  {
    var n := Height(Obj(st));
    FieldsAreLower(st);
    match RuleFor(su.phase, DeviceNamed(su.devices, id)) {
      case Keypad =>
        if LedFires(st) {
          FieldsAreLower(st["set_led"].fields);
        }
        assert Within(LedAsAction(st), n);
        VerbsWithin(LedAsAction(st), su.verbs, n);
      case Rename(table) =>
        RenamedWithin(st, table, n);
    }
    ObjHeight(Command(su, id, st), n);
  }

  lemma {:induction false} EnteredIsLower(su: Setup, f: Fields)
    ensures forall k :: k in Entered(su, f) ==> Height(Entered(su, f)[k]) < Height(Obj(f))
  {
    FieldsAreLower(f);
    var g := Read(su, f);
    forall k | k in f ensures Height(Entered(su, f)[k]) < Height(Obj(f)) {
      assert Height(g[k]) <= Height(f[k]);
      if IsCommand(g, k) {
        CommandIsNoHigher(su, g["device_id"], g[k].fields);
      }
    }
  }

  // ---------- Renaming keys ----------

  /** After the renames, none of them applies any more. */
  lemma {:induction false} RenamedSettles(st: Fields, table: Renames)
    requires NoChains(table)
    ensures forall i :: 0 <= i < |table| ==> !RenameFires(Renamed(st, table), table[i])
  {
    if table != [] {
      var front := table[..|table| - 1];
      assert NoChains(front) by {
        assert forall i :: 0 <= i < |front| ==> front[i] == table[i];
      }
      RenamedSettles(st, front);
      var mid, last := Renamed(st, front), table[|table| - 1];
      forall i | 0 <= i < |table| ensures !RenameFires(Renamed(st, table), table[i]) {
        assert table[i].0 != last.1 && last.0 != table[i].1 && last.0 != last.1;
        if i < |front| {
          assert !RenameFires(mid, front[i]) && front[i] == table[i];
        }
      }
    }
  }

  lemma {:induction false} RenamedIdle(st: Fields, table: Renames)
    requires forall i :: 0 <= i < |table| ==> !RenameFires(st, table[i])
    ensures Renamed(st, table) == st
  {
    if table != [] {
      RenamedIdle(st, table[..|table| - 1]);
    }
  }

  /** A one-to-one account of where each field went. */
  ghost predicate Accounts(moved: map<string, string>, st: Fields, st': Fields, table: Renames) {
    && moved.Keys == st.Keys && moved.Values == st'.Keys
    && (forall k, m :: k in moved && m in moved && k != m ==> moved[k] != moved[m])
    && (forall k :: k in moved ==> st'[moved[k]] == st[k])
    && forall k :: k in moved ==> moved[k] == k || ((k, moved[k]) in table && moved[k] !in st)
  }

  /**
    Renaming keys overwrites no key and loses no value: every field is found again, under
    its own name or under a new name that was free, no two under the same, and nothing else is there.
   */
  lemma {:induction false} RenamesLoseNothing(st: Fields, table: Renames) returns (moved: map<string, string>)
    requires NoChains(table)
    ensures Accounts(moved, st, Renamed(st, table), table)
  {
    if table == [] {
      moved := map k | k in st :: k;
    } else {
      var front, last := table[..|table| - 1], table[|table| - 1];
      assert table == front + [last];
      assert NoChains(front) by {
        assert forall i :: 0 <= i < |front| ==> front[i] == table[i];
      }
      var before := RenamesLoseNothing(st, front);
      var mid := Renamed(st, front);
      assert forall k :: k in before ==> before[k] in before.Values;
      moved := before;
      if RenameFires(mid, last) {
        moved := map k | k in before :: if before[k] == last.0 then last.1 else before[k];
        OneRenameAccounts(st, mid, before, moved, table);
      }
    }
  }

  lemma {:induction false} OneRenameAccounts(st: Fields, mid: Fields, before: map<string, string>,
                                             moved: map<string, string>, table: Renames)
    requires table != [] && NoChains(table) && Accounts(before, st, mid, table[..|table| - 1])
    requires RenameFires(mid, table[|table| - 1])
    requires moved.Keys == before.Keys
    requires forall k :: k in before ==>
              moved[k] == if before[k] == table[|table| - 1].0 then table[|table| - 1].1 else before[k]
    ensures Accounts(moved, st, RenameOne(mid, table[|table| - 1]), table)
  {
    var front, last := table[..|table| - 1], table[|table| - 1];
    var st' := RenameOne(mid, last);
    assert table == front + [last];
    assert forall k :: k in before ==> before[k] in before.Values;
    forall k | k in moved ensures moved[k] == k || ((k, moved[k]) in table && moved[k] !in st) {
      if before[k] == last.0 {
        MovedOnce(before, front, last, k);
        NewNameWasFree(st, mid, before, table);
      }
    }
    OneRenameValues(mid, before, moved, last);
  }

  lemma {:induction false} OneRenameValues(mid: Fields, before: map<string, string>, moved: map<string, string>,
                                           r: (string, string))
    requires RenameFires(mid, r) && before.Values == mid.Keys && moved.Keys == before.Keys
    requires forall k :: k in before ==> moved[k] == if before[k] == r.0 then r.1 else before[k]
    ensures moved.Values == RenameOne(mid, r).Keys
  {
  }

  /** A field that was already renamed is not renamed again, as no new name is an old one. */
  lemma {:induction false} MovedOnce(before: map<string, string>, front: Renames, last: (string, string), k: string)
    requires NoChains(front + [last]) && k in before && before[k] == last.0
    requires before[k] == k || (k, before[k]) in front
    ensures k == last.0
  {
    var table := front + [last];
    assert table[|front|] == last;
    forall i | 0 <= i < |front| ensures front[i].1 != last.0 {
      assert front[i] == table[i] && table[|front|].0 != table[i].1;
    }
  }

  /** A name free in the middle was free at the start: only old names ever go away. */
  lemma {:induction false} NewNameWasFree(st: Fields, mid: Fields, before: map<string, string>, table: Renames)
    requires table != [] && NoChains(table) && Accounts(before, st, mid, table[..|table| - 1])
    requires table[|table| - 1].1 !in mid
    ensures table[|table| - 1].1 !in st
  {
  }

  // ---------- What the keypad rewrite may lose ----------

  /** The rewritten command still says set_led, and every field it and its light had is there with its value. */
  ghost predicate LedKept(st: Fields, st': Fields)
    requires LedFires(st)
  {
    var led := st["set_led"].fields;
    && "action" in st' && st'["action"] == Str("set_led")
    && (forall k :: k in led ==> k in st' && st'[k] == led[k])
    && (forall k :: k in st && k != "set_led" ==> k in st' && st'[k] == st[k])
  }

  /**
    Spreading the light's fields into the command loses nothing exactly when they differ
    from no field the command has of its own, and from the action itself.
   */
  lemma {:induction false} LedLosesNothingIff(st: Fields)
    requires LedFires(st)
    ensures var led := st["set_led"].fields;
            LedKept(st, LedAsAction(st)) <==>
            && ("action" in led ==> led["action"] == Str("set_led"))
            && forall k :: k in led && k in st && k != "set_led" ==> led[k] == st[k]
  {
    var led, st' := st["set_led"].fields, LedAsAction(st);
    forall k | k in led ensures k in st' && st'[k] == if k in st && k != "set_led" then st[k] else led[k] {
    }
  }

  /** Turning a verb into the action loses nothing: only the verb's own key goes, and the action names it. */
  lemma {:induction false} VerbLosesNothing(st: Fields, verb: string)
    requires VerbFires(st, verb)
    ensures var st' := VerbAsAction(st, verb);
            && "action" in st' && st'["action"] == Str(verb)
            && st'.Keys == (st.Keys - {verb}) + {"action"}
            && forall k :: k in st && k != verb ==> st'[k] == st[k]
  {
    assert verb in st && "action" !in st;
  }

  // ---------- Commands settle ----------

  lemma {:induction false} VerbsSettle(st: Fields, verbs: seq<string>)
    ensures forall verb :: verb in verbs ==> !VerbFires(VerbsAsAction(st, verbs), verb)
    ensures "action" in st ==> VerbsAsAction(st, verbs) == st
    ensures VerbsAsAction(st, verbs) == st || "action" in VerbsAsAction(st, verbs)
  {
    if verbs != [] {
      VerbsSettle(st, verbs[..|verbs| - 1]);
      assert verbs == verbs[..|verbs| - 1] + [verbs[|verbs| - 1]];
    }
  }

  lemma {:induction false} VerbsIdle(st: Fields, verbs: seq<string>)
    requires forall verb :: verb in verbs ==> !VerbFires(st, verb)
    ensures VerbsAsAction(st, verbs) == st
  {
    if verbs != [] {
      assert verbs[|verbs| - 1] in verbs;
      VerbsIdle(st, verbs[..|verbs| - 1]);
    }
  }

  /** The verbs in some order. */
  ghost predicate AnyOrder(su: Setup) {
    forall verb :: verb in su.verbs <==> verb in KEY_ACTIONS
  }

  lemma {:induction false} CommandSettles(su: Setup, id: Json, st: Fields)
    requires AnyOrder(su)
    ensures CommandSettled(su.phase, su.devices, id, Command(su, id, st))
  {
    var d := DeviceNamed(su.devices, id);
    TablesHaveNoChains(d);
    match RuleFor(su.phase, d) {
      case Keypad => VerbsSettle(LedAsAction(st), su.verbs);
      case Rename(table) => RenamedSettles(st, table);
    }
  }

  lemma {:induction false} SettledCommandIsIdle(su: Setup, id: Json, st: Fields)
    requires AnyOrder(su) && CommandSettled(su.phase, su.devices, id, st)
    ensures Command(su, id, st) == st
  {
    match RuleFor(su.phase, DeviceNamed(su.devices, id)) {
      case Keypad => VerbsIdle(st, su.verbs);
      case Rename(table) => RenamedIdle(st, table);
    }
  }

  /** The same keys, and the same objects and truths under them: all a command's rules look at. */
  predicate Alike(st: Fields, st': Fields) {
    && st'.Keys == st.Keys
    && forall k :: k in st ==> (st'[k].Obj? <==> st[k].Obj?) && (st'[k] == Bool(true) <==> st[k] == Bool(true))
  }

  lemma {:induction false} AlikeIsSettledToo(phase: Phase, devices: map<string, Device>, id: Json, st: Fields,
                                             st': Fields)
    requires CommandSettled(phase, devices, id, st) && Alike(st, st')
    ensures CommandSettled(phase, devices, id, st')
  {
  }

  // ---------- Reading nodes settle ----------

  lemma {:induction false} NewNameIsFinal(table: Renames, name: string, n: nat)
    requires NoChains(table) && n <= |table| && NewName(table[..n], name).Some?
    ensures exists j :: 0 <= j < |table| && table[j].1 == NewName(table[..n], name).value
    decreases n
  {
    if table[..n][n - 1].0 != name {
      assert table[..n][..n - 1] == table[..n - 1];
      NewNameIsFinal(table, name, n - 1);
    } else {
      assert table[n - 1].1 == NewName(table[..n], name).value;
    }
  }

  lemma {:induction false} NotAnOldName(table: Renames, name: string)
    requires forall i :: 0 <= i < |table| ==> table[i].0 != name
    ensures NewName(table, name).None?
  {
    if table != [] {
      NotAnOldName(table[..|table| - 1], name);
    }
  }

  /** A new name is not renamed again. */
  lemma {:induction false} RenamedOnce(d: Device, name: string)
    requires NewName(ReadRenames(d), name).Some?
    ensures NewName(ReadRenames(d), NewName(ReadRenames(d), name).value).None?
  {
    var table := ReadRenames(d);
    TablesHaveNoChains(d);
    assert table[..|table|] == table;
    NewNameIsFinal(table, name, |table|);
    NotAnOldName(table, NewName(table, name).value);
  }

  /** What a walk leaves of a value: scalars as they are, lists and objects as lists and objects. */
  ghost predicate SameKind(j: Json, j': Json) {
    match j
    case Obj(f) => j'.Obj? && (f == map[] <==> j'.fields == map[])
    case Arr(items) => j'.Arr? && |j'.items| == |items|
    case _ => j' == j
  }

  lemma {:induction false} WalkKeepsKind(su: Setup, j: Json)
    ensures SameKind(j, Walk(su, j))
    ensures j.Arr? ==> forall i :: 0 <= i < |j.items| ==> Walk(su, j).items[i] == Walk(su, j.items[i])
  {
  }

  lemma {:induction false} WalkedFirst(su: Setup, ids: Json)
    ensures Truthy(Walk(su, ids)) <==> Truthy(ids)
    ensures First(Walk(su, ids)).None? <==> First(ids).None?
    ensures First(ids).Some? ==> SameKind(First(ids).value, First(Walk(su, ids)).value)
  {
  }

  /** The fields of a walked node. */
  function Walked(su: Setup, f: Fields): Fields {
    Walk(su, Obj(f)).fields
  }

  lemma {:induction false} WalkedFields(su: Setup, f: Fields)
    ensures Walked(su, f).Keys == f.Keys
    ensures forall k :: k in f ==> Walked(su, f)[k] == Walk(su, Entered(su, f)[k])
  {
  }

  /** Which device a node speaks of is the same after the walk. */
  lemma {:induction false} WalkedIds(su: Setup, f: Fields)
    ensures var w := Walked(su, f);
            && (NamesDevice(w) <==> NamesDevice(f))
            && (NamesDevice(f) ==> w["device_id"] == f["device_id"])
            && (Truthy(DeviceIds(w)) <==> Truthy(DeviceIds(f)))
            && (First(DeviceIds(w)).None? <==> First(DeviceIds(f)).None?)
            && (First(DeviceIds(f)).Some? ==> SameKind(First(DeviceIds(f)).value, First(DeviceIds(w)).value))
  {
    WalkedFields(su, f);
    WalkedField(su, f, "device_id");
    WalkedField(su, f, "device_ids");
    if "device_ids" in f {
      WalkedFirst(su, f["device_ids"]);
    }
  }

  /** A field that neither reading nor a command touches is just walked. */
  lemma {:induction false} WalkedField(su: Setup, f: Fields, k: string)
    requires k !in COMMAND_KEYS && k !in {"attribute", "to", "from", "value"}
    ensures k in f ==> k in Walked(su, f) && Walked(su, f)[k] == Walk(su, f[k]) && SameKind(f[k], Walked(su, f)[k])
  {
  }

  lemma {:induction false} WalkedAttribute(su: Setup, f: Fields)
    ensures var w := Walked(su, f);
            && (Reads(w) <==> Reads(f))
            && (Reads(f) ==> w["attribute"] == Read(su, f)["attribute"] && w["attribute"].Str?)
  {
    WalkedIds(su, f);
    WalkedFields(su, f);
    if "attribute" in f {
      assert Entered(su, f)["attribute"] == Read(su, f)["attribute"];
      WalkKeepsKind(su, Read(su, f)["attribute"]);
    }
  }

  lemma {:induction false} WalkedNodeReadsNothingOld(su: Setup, f: Fields)
    ensures Renaming(su.phase, su.devices, Walked(su, f)).None?
  {
    WalkedIds(su, f);
    WalkedAttribute(su, f);
    var w := Walked(su, f);
    if su.phase == Plugins && Reads(w) && First(DeviceIds(w)).Some? {
      var d := DeviceNamed(su.devices, First(DeviceIds(f)).value);
      assert d == DeviceNamed(su.devices, First(DeviceIds(w)).value);
      if Renaming(su.phase, su.devices, f).Some? {
        RenamedOnce(d, f["attribute"].s);
      }
    }
  }

  lemma {:induction false} EnteredIsAlike(su: Setup, f: Fields, k: string)
    requires k in f
    ensures Entered(su, f)[k].Obj? <==> f[k].Obj?
    ensures Entered(su, f)[k] == Bool(true) <==> f[k] == Bool(true)
  {
    var g := Read(su, f);
    assert (g[k].Obj? <==> f[k].Obj?) && (g[k] == Bool(true) <==> f[k] == Bool(true)) by {
      if k == "attribute" && Renaming(su.phase, su.devices, f).Some? {
        assert f[k].Str? && g[k].Str?;
      }
    }
  }

  /** Walking a command changes nothing its rules look at. */
  lemma {:induction false} WalkedIsAlike(su: Setup, f: Fields)
    ensures Alike(f, Walked(su, f))
  {
    WalkedFields(su, f);
    forall k | k in f
      ensures (Walked(su, f)[k].Obj? <==> f[k].Obj?) && (Walked(su, f)[k] == Bool(true) <==> f[k] == Bool(true)) {
      EnteredIsAlike(su, f, k);
      WalkKeepsKind(su, Entered(su, f)[k]);
    }
  }

  lemma {:induction false} WalkedCommandIsSettled(su: Setup, f: Fields, k: string)
    requires AnyOrder(su) && IsCommand(Walked(su, f), k)
    ensures CommandSettled(su.phase, su.devices, Walked(su, f)["device_id"], Walked(su, f)[k].fields)
  {
    WalkedIds(su, f);
    WalkedFields(su, f);
    var g, w := Read(su, f), Walked(su, f);
    WalkKeepsKind(su, Entered(su, f)[k]);
    assert g[k] == f[k] && g["device_id"] == f["device_id"];
    assert IsCommand(g, k);
    var c := Command(su, f["device_id"], f[k].fields);
    assert w[k] == Walk(su, Obj(c));
    CommandSettles(su, f["device_id"], f[k].fields);
    WalkedIsAlike(su, c);
    AlikeIsSettledToo(su.phase, su.devices, f["device_id"], c, w[k].fields);
  }

  // ---------- The main results ----------

  /** One walk settles every tree, for every device table and every order of the verbs. */
  lemma {:induction false} WalkSettles(su: Setup, j: Json)
    requires AnyOrder(su)
    ensures Settled(su.phase, su.devices, Walk(su, j))
    decreases Height(j)
  {
    match j {
      case Obj(f) =>
        EnteredIsLower(su, f);
        WalkedFields(su, f);
        WalkedNodeReadsNothingOld(su, f);
        var w := Walked(su, f);
        forall k | IsCommand(w, k) ensures CommandSettled(su.phase, su.devices, w["device_id"], w[k].fields) {
          WalkedCommandIsSettled(su, f, k);
        }
        forall k | k in w ensures Settled(su.phase, su.devices, w[k]) {
          WalkSettles(su, Entered(su, f)[k]);
        }
      case Arr(items) =>
        ItemsAreLower(items);
        forall i | 0 <= i < |items| ensures Settled(su.phase, su.devices, Walk(su, j).items[i]) {
          WalkSettles(su, items[i]);
        }
      case _ =>
    }
  }

  lemma {:induction false} EnteringSettled(su: Setup, f: Fields)
    requires AnyOrder(su) && Settled(su.phase, su.devices, Obj(f))
    ensures Entered(su, f) == f
  {
    forall k | IsCommand(f, k) ensures Command(su, f["device_id"], f[k].fields) == f[k].fields {
      SettledCommandIsIdle(su, f["device_id"], f[k].fields);
    }
  }

  /** A settled tree is left exactly as it is. */
  lemma {:induction false} SettledIsFixed(su: Setup, j: Json)
    requires AnyOrder(su) && Settled(su.phase, su.devices, j)
    ensures Walk(su, j) == j
  {
    match j {
      case Obj(f) =>
        EnteringSettled(su, f);
        WalkedFields(su, f);
        forall k | k in f ensures Walked(su, f)[k] == f[k] {
          SettledIsFixed(su, f[k]);
        }
        assert Walked(su, f) == f;
      case Arr(items) =>
        WalkKeepsKind(su, j);
        forall i | 0 <= i < |items| ensures Walk(su, j).items[i] == items[i] {
          SettledIsFixed(su, items[i]);
        }
      case _ =>
    }
  }

  /** Walking an already rewritten tree changes nothing, even if the verbs come in another order this time. */
  lemma {:induction false} WalkIsIdempotent(su: Setup, again: Setup, j: Json)
    requires AnyOrder(su) && AnyOrder(again) && again.phase == su.phase && again.devices == su.devices
    ensures Walk(again, Walk(su, j)) == Walk(su, j)
  {
    WalkSettles(su, j);
    SettledIsFixed(again, Walk(su, j));
  }

  /** Where the walk stops with an error. */
  ghost predicate Raises(su: Setup, j: Json)
    decreases Height(j)
  {
    match j
    case Obj(f) =>
      EnteredIsLower(su, f);
      ReadRaises(su.phase, f) || exists k :: k in f && Raises(su, Entered(su, f)[k])
    case Arr(items) =>
      ItemsAreLower(items);
      exists i :: 0 <= i < |items| && Raises(su, items[i])
    case _ => false
  }

  lemma {:induction false} WalkedNodeReads(su: Setup, f: Fields)
    requires !ReadRaises(su.phase, f)
    ensures !ReadRaises(su.phase, Walked(su, f))
  {
    WalkedIds(su, f);
    WalkedAttribute(su, f);
  }

  /** Nor does a second walk stop with an error where the first did not. */
  lemma {:induction false} WalkedDoesNotRaise(su: Setup, again: Setup, j: Json)
    requires AnyOrder(su) && AnyOrder(again) && again.phase == su.phase && again.devices == su.devices
    requires !Raises(su, j)
    ensures !Raises(again, Walk(su, j))
    decreases Height(j)
  {
    match j {
      case Obj(f) =>
        EnteredIsLower(su, f);
        WalkedFields(su, f);
        WalkedNodeReads(su, f);
        WalkSettles(su, j);
        EnteringSettled(again, Walked(su, f));
        forall k | k in f ensures !Raises(again, Walked(su, f)[k]) {
          WalkedDoesNotRaise(su, again, Entered(su, f)[k]);
        }
      case Arr(items) =>
        ItemsAreLower(items);
        WalkKeepsKind(su, j);
        forall i | 0 <= i < |items| ensures !Raises(again, Walk(su, j).items[i]) {
          WalkedDoesNotRaise(su, again, items[i]);
        }
      case _ =>
    }
  }

  // ---------- The loops of a command ----------

  method RenameKeys(st: Fields, table: Renames) returns (st': Fields)
    ensures st' == Renamed(st, table)
  {
    st' := st;
    for i := 0 to |table|
      invariant st' == Renamed(st, table[..i])
    {
      assert table[..i + 1][..i] == table[..i];
      if table[i].0 in st' && table[i].1 !in st' {
        var value := st'[table[i].0];
        st' := st' - {table[i].0};
        st' := st'[table[i].1 := value];
      }
    }
    assert table[..|table|] == table;
  }

  method ActOnVerbs(st: Fields, verbs: seq<string>) returns (st': Fields)
    ensures st' == VerbsAsAction(st, verbs)
  {
    st' := st;
    for i := 0 to |verbs|
      invariant st' == VerbsAsAction(st, verbs[..i])
    {
      assert verbs[..i + 1][..i] == verbs[..i];
      if verbs[i] in st' && st'[verbs[i]] == Bool(true) && "action" !in st' {
        st' := st' - {verbs[i]};
        st' := map["action" := Str(verbs[i])] + st';
      }
    }
    assert verbs[..|verbs|] == verbs;
  }

  /** A command written to a device, rewritten as the phase and the device's plugin call for. */
  method RewriteCommand(su: Setup, id: Json, st: Fields) returns (st': Fields)
    requires AnyOrder(su)
    ensures st' == Command(su, id, st)
    ensures CommandSettled(su.phase, su.devices, id, st')
  {
    var d := DeviceNamed(su.devices, id);
    st' := st;
    if su.phase == Now && d.plugin in {"plugin.lutron", "plugin.caseta"} {
      if "set_led" in st' && st'["set_led"].Obj? && "action" !in st' {
        var led := st'["set_led"].fields;
        st' := st' - {"set_led"};
        st' := map["action" := Str("set_led")] + led + st';
      }
      st' := ActOnVerbs(st', su.verbs);
    }
    if su.phase == Now && d.plugin == "plugin.wled" {
      st' := RenameKeys(st', WLED_KEYS);
    }
    if su.phase == Plugins {
      st' := RenameKeys(st', WriteRenames(d));
    }
    if su.phase == Core && d.plugin == "core.glue" && "command" in st' && "action" !in st' {
      st' := (st' - {"command"})["action" := st'["command"]];
    }
    CommandSettles(su, id, st);
    RenamedOneEntry(st, ("command", "action"));
  }

  lemma {:induction false} RenamedOneEntry(st: Fields, r: (string, string))
    ensures Renamed(st, [r]) == RenameOne(st, r)
  {
  }
}
