/**
  Backup and restore. An archive names each file by its role, not by where it lay, so
  it can be put back on a host whose paths differ. Paths are lists of components.
 */
module Backup {
  import opened Basics
  import opened Options

  type Path = seq<string>
  type Bytes = seq<bv8>
  type Files = map<Path, Bytes>

  datatype Plugin = Plugin(id: string, path: Path)

  datatype Paths = Paths(
    stateDb: Path, historyDb: Path, config: Path, rulesDir: Path,
    plugins: seq<Plugin>, store: Option<Path>, calendarsDir: Option<Path>)

  /** One entry; no name when the name it carries would lead out of the archive. */
  datatype Entry = Entry(name: Option<Path>, data: Bytes)

  type Archive = seq<Entry>

  // ---------- Where things go ----------

  function Sibling(config: Path, name: string): Option<Path> {
    if config == [] then None else Some(config[..|config| - 1] + [name])
  }

  function FindPlugin(plugins: seq<Plugin>, id: string): Option<Path> {
    if plugins == [] then None
    else if plugins[0].id == id then Some(plugins[0].path)
    else FindPlugin(plugins[1..], id)
  }

  function Slug(id: string): string {
    seq(|id|, i requires 0 <= i < |id| =>
      var c := id[i];
      if 'a' <= c <= 'z' || 'A' <= c <= 'Z' || '0' <= c <= '9' || c == '.' || c == '-' || c == '_' then c else '_')
  }

  function PluginPlace(paths: Paths, id: string): Option<Path> {
    var known := FindPlugin(paths.plugins, id);
    if known.Some? then known
    else if paths.store.Some? && StartsWith(id, "plugin.") && '/' !in id
    then Some(paths.store.value + [Slug(id) + ".toml"])
    else None
  }

  function Slashed(parts: seq<string>): string {
    if parts == [] then "" else if |parts| == 1 then parts[0] else parts[0] + "/" + Slashed(parts[1..])
  }

  /** The plugin id an entry's name carries between `plugins/` and `/config.toml`. */
  function IdIn(name: Path): string {
    if |name| >= 3 && name[|name| - 1] == "config.toml" then Slashed(name[1..|name| - 1]) else ""
  }

  /** Where an entry goes on this host, or none to skip it. */
  function Destination(paths: Paths, name: Path): Option<Path> {
    if name == ["state.redb"] then Some(paths.stateDb)
    else if name == ["history.db"] then Some(paths.historyDb)
    else if name == ["config", "homecore.toml"] then Some(paths.config)
    else if name == ["config", "modes.toml"] then Sibling(paths.config, "modes.toml")
    else if name == ["config", "mode_definitions.json"] then Sibling(paths.config, "mode_definitions.json")
    else if |name| >= 2 && name[0] == "rules" then Some(paths.rulesDir + [name[|name| - 1]])
    else if |name| >= 2 && name[0] == "calendars" then
      if paths.calendarsDir.Some? then Some(paths.calendarsDir.value + [name[|name| - 1]]) else None
    else if |name| >= 2 && name[0] == "plugins" then PluginPlace(paths, IdIn(name))
    else None
  }

  // ---------- What a backup holds ----------

  /** What a file is to homeCore, wherever it lies. */
  datatype Role =
    | StateDb
    | HistoryDb
    | Config
    | Modes
    | ModeDefinitions
    | Rule(name: string)
    | PluginConfig(id: string)
    | Calendar(name: string)

  function NameOf(r: Role): Path {
    match r
    case StateDb => ["state.redb"]
    case HistoryDb => ["history.db"]
    case Config => ["config", "homecore.toml"]
    case Modes => ["config", "modes.toml"]
    case ModeDefinitions => ["config", "mode_definitions.json"]
    case Rule(name) => ["rules", name]
    case PluginConfig(id) => ["plugins", id, "config.toml"]
    case Calendar(name) => ["calendars", name]
  }

  /** The file with this role on a host. */
  function Place(paths: Paths, r: Role): Option<Path> {
    match r
    case StateDb => Some(paths.stateDb)
    case HistoryDb => Some(paths.historyDb)
    case Config => Some(paths.config)
    case Modes => Sibling(paths.config, "modes.toml")
    case ModeDefinitions => Sibling(paths.config, "mode_definitions.json")
    case Rule(name) => Some(paths.rulesDir + [name])
    case PluginConfig(id) => PluginPlace(paths, id)
    case Calendar(name) => if paths.calendarsDir.Some? then Some(paths.calendarsDir.value + [name]) else None
  }

  /** An entry's name leads to the file that has the same role on whatever host it is restored to. */
  lemma {:induction false} DestinationIsPlace(paths: Paths, r: Role)
    ensures Destination(paths, NameOf(r)) == Place(paths, r)
  {
  }

  datatype Source = Source(role: Role, path: Path, required: bool)

  function RuleSources(dir: Path, names: seq<string>): seq<Source> {
    seq(|names|, i requires 0 <= i < |names| => Source(Rule(names[i]), dir + [names[i]], true))
  }

  function PluginSources(plugins: seq<Plugin>): seq<Source> {
    seq(|plugins|, i requires 0 <= i < |plugins| => Source(PluginConfig(plugins[i].id), plugins[i].path, false))
  }

  function CalendarSources(dir: Option<Path>, names: seq<string>): seq<Source> {
    if dir.None? then []
    else seq(|names|, i requires 0 <= i < |names| => Source(Calendar(names[i]), dir.value + [names[i]], false))
  }

  function FixedSources(paths: Paths): seq<Source> {
    [Source(StateDb, paths.stateDb, true),
     Source(HistoryDb, paths.historyDb, true),
     Source(Config, paths.config, false)]
    + (if paths.config == [] then []
       else [Source(Modes, Sibling(paths.config, "modes.toml").value, false),
             Source(ModeDefinitions, Sibling(paths.config, "mode_definitions.json").value, false)])
  }

  /** Everything a backup reads, in the order it reads it. */
  function Sources(paths: Paths, rules: seq<string>, calendars: seq<string>): seq<Source> {
    FixedSources(paths) + RuleSources(paths.rulesDir, rules) + PluginSources(paths.plugins)
    + CalendarSources(paths.calendarsDir, calendars)
  }

  /** The archive of those that exist; none when a required one does not. */
  function Archived(files: Files, sources: seq<Source>): Option<Archive> {
    if sources == [] then Some([])
    else
      var before, s := Archived(files, sources[..|sources| - 1]), sources[|sources| - 1];
      if before.None? then None
      else if s.path in files then Some(before.value + [Entry(Some(NameOf(s.role)), files[s.path])])
      else if s.required then None
      else before
  }

  predicate EndsWith(s: string, suffix: string) {
    |suffix| < |s| && s[|s| - |suffix|..] == suffix
  }

  predicate IsRuleFile(name: string) {
    EndsWith(name, ".ron") || EndsWith(name, ".toml")
  }

  /** What listing the rules folder yields: its rule files, and no others. */
  ghost predicate ListsRules(rules: seq<string>, dir: Path, files: Files) {
    forall n :: n in rules <==> IsRuleFile(n) && dir + [n] in files
  }

  /** A backup fails exactly when one of the two databases is missing, and holds every rule file. */
  lemma {:induction false} BackupFailsIff(paths: Paths, files: Files, rules: seq<string>, calendars: seq<string>)
    requires ListsRules(rules, paths.rulesDir, files)
    ensures Archived(files, Sources(paths, rules, calendars)).None? <==>
              paths.stateDb !in files || paths.historyDb !in files
    ensures forall n :: IsRuleFile(n) && paths.rulesDir + [n] in files ==>
                          Source(Rule(n), paths.rulesDir + [n], true) in Sources(paths, rules, calendars)
  {
    var sources := Sources(paths, rules, calendars);
    ArchivedFailsIff(files, sources);
    assert sources[0] == Source(StateDb, paths.stateDb, true) && sources[1] == Source(HistoryDb, paths.historyDb, true);
    assert sources[0] in sources && sources[1] in sources;
    forall s | s in sources && s.required
      ensures s.path in files || s.path == paths.stateDb || s.path == paths.historyDb {
      RequiredSource(paths, files, rules, calendars, s);
    }
    forall n | IsRuleFile(n) && paths.rulesDir + [n] in files
      ensures Source(Rule(n), paths.rulesDir + [n], true) in sources {
      var i :| 0 <= i < |rules| && rules[i] == n;
      assert RuleSources(paths.rulesDir, rules)[i] in RuleSources(paths.rulesDir, rules);
    }
  }

  lemma {:induction false} RequiredSource(paths: Paths, files: Files, rules: seq<string>, calendars: seq<string>,
                                          s: Source)
    requires ListsRules(rules, paths.rulesDir, files) && s in Sources(paths, rules, calendars) && s.required
    ensures s.path in files || s.path == paths.stateDb || s.path == paths.historyDb
  {
    if s in RuleSources(paths.rulesDir, rules) {
      var i :| 0 <= i < |rules| && RuleSources(paths.rulesDir, rules)[i] == s;
      assert rules[i] in rules;
    } else {
      assert s in FixedSources(paths) || s in PluginSources(paths.plugins)
             || s in CalendarSources(paths.calendarsDir, calendars);
    }
  }

  lemma {:induction false} ArchivedFailsIff(files: Files, sources: seq<Source>)
    ensures Archived(files, sources).None? <==> exists s :: s in sources && s.required && s.path !in files
  {
    if sources != [] {
      var before, s := sources[..|sources| - 1], sources[|sources| - 1];
      ArchivedFailsIff(files, before);
      assert sources == before + [s];
    }
  }

  /** Ids stand for themselves in a name, and no two plugins share one. */
  predicate PlainIds(plugins: seq<Plugin>) {
    && (forall i :: 0 <= i < |plugins| ==> plugins[i].id != "" && '/' !in plugins[i].id)
    && forall i, j :: 0 <= i < j < |plugins| ==> plugins[i].id != plugins[j].id
  }

  lemma {:induction false} FindsOwnPlugin(plugins: seq<Plugin>, i: nat)
    requires PlainIds(plugins) && i < |plugins|
    ensures FindPlugin(plugins, plugins[i].id) == Some(plugins[i].path)
    decreases |plugins|
  {
    if i > 0 {
      assert plugins[1..][i - 1] == plugins[i];
      FindsOwnPlugin(plugins[1..], i - 1);
    }
  }

  lemma {:induction false} PluginSourceIsInPlace(paths: Paths, s: Source)
    requires PlainIds(paths.plugins) && s in PluginSources(paths.plugins)
    ensures Place(paths, s.role) == Some(s.path)
  {
    var i :| 0 <= i < |paths.plugins| && PluginSources(paths.plugins)[i] == s;
    FindsOwnPlugin(paths.plugins, i);
  }

  lemma FixedSourceIsInPlace(paths: Paths, s: Source)
    requires s in FixedSources(paths)
    ensures Place(paths, s.role) == Some(s.path)
  {
  }

  /** Each file read for a backup is the one that has its role on this host. */
  lemma {:induction false} SourcesAreInPlace(paths: Paths, rules: seq<string>, calendars: seq<string>, s: Source)
    requires PlainIds(paths.plugins) && s in Sources(paths, rules, calendars)
    ensures Place(paths, s.role) == Some(s.path)
  {
    if s in FixedSources(paths) {
      FixedSourceIsInPlace(paths, s);
    } else if s in PluginSources(paths.plugins) {
      PluginSourceIsInPlace(paths, s);
    } else {
      assert s in RuleSources(paths.rulesDir, rules) || s in CalendarSources(paths.calendarsDir, calendars);
    }
  }

  lemma {:induction false} ArchivedEntries(files: Files, sources: seq<Source>)
    requires Archived(files, sources).Some?
    ensures forall s :: s in sources && s.path in files ==>
              Entry(Some(NameOf(s.role)), files[s.path]) in Archived(files, sources).value
    ensures forall e :: e in Archived(files, sources).value ==>
                          exists s :: s in sources && s.path in files && e == Entry(Some(NameOf(s.role)), files[s.path])
  {
    if sources != [] {
      var before, s := sources[..|sources| - 1], sources[|sources| - 1];
      ArchivedEntries(files, before);
      assert sources == before + [s];
    }
  }

  // ---------- Restoring ----------

  function DestinationOf(paths: Paths, e: Entry): Option<Path> {
    if e.name.None? then None else Destination(paths, e.name.value)
  }

  function Extracted(paths: Paths, a: Archive, files: Files): Files {
    if a == [] then files
    else
      var before, e := Extracted(paths, a[..|a| - 1], files), a[|a| - 1];
      var dest := DestinationOf(paths, e);
      if dest.None? then before else before[dest.value := e.data]
  }

  datatype Skipped = UnsafeAt(index: nat) | Named(name: Path)

  function RestoredNames(paths: Paths, a: Archive): seq<Path> {
    if a == [] then []
    else
      var before, e := RestoredNames(paths, a[..|a| - 1]), a[|a| - 1];
      if DestinationOf(paths, e).Some? then before + [e.name.value] else before
  }

  function SkippedNames(paths: Paths, a: Archive): seq<Skipped> {
    if a == [] then []
    else
      var before, e := SkippedNames(paths, a[..|a| - 1]), a[|a| - 1];
      if DestinationOf(paths, e).Some? then before else before + [SkipOf(e, |a| - 1)]
  }

  function SkipOf(e: Entry, index: nat): Skipped {
    if e.name.None? then UnsafeAt(index) else Named(e.name.value)
  }

  predicate Contend(paths: Paths, e: Entry, e': Entry) {
    DestinationOf(paths, e).Some? && DestinationOf(paths, e) == DestinationOf(paths, e')
  }

  /** Entries that go to the same place hold the same. */
  predicate Agree(paths: Paths, a: Archive) {
    forall i, j :: 0 <= i < j < |a| && Contend(paths, a[i], a[j]) ==> a[i].data == a[j].data
  }

  ghost predicate HoldsAll(paths: Paths, a: Archive, files: Files) {
    forall i :: 0 <= i < |a| && DestinationOf(paths, a[i]).Some? ==>
                  DestinationOf(paths, a[i]).value in files && files[DestinationOf(paths, a[i]).value] == a[i].data
  }

  ghost predicate IsDestination(paths: Paths, a: Archive, q: Path) {
    exists i :: 0 <= i < |a| && DestinationOf(paths, a[i]) == Some(q)
  }

  lemma {:induction false} TouchesNothingElse(paths: Paths, a: Archive, files: Files, q: Path)
    requires !IsDestination(paths, a, q)
    ensures q in Extracted(paths, a, files) <==> q in files
    ensures q in files ==> Extracted(paths, a, files)[q] == files[q]
  {
    if a != [] {
      var front := a[..|a| - 1];
      assert forall i :: 0 <= i < |front| ==> front[i] == a[i];
      assert DestinationOf(paths, a[|a| - 1]) != Some(q);
      TouchesNothingElse(paths, front, files, q);
    }
  }

  /** The last entry for a place is the one that stays. */
  lemma {:induction false} LastOneStays(paths: Paths, a: Archive, files: Files, i: nat)
    requires i < |a| && DestinationOf(paths, a[i]).Some?
    requires forall j :: i < j < |a| ==> DestinationOf(paths, a[j]) != DestinationOf(paths, a[i])
    ensures var q := DestinationOf(paths, a[i]).value;
            q in Extracted(paths, a, files) && Extracted(paths, a, files)[q] == a[i].data
    decreases |a|
  {
    if i < |a| - 1 {
      LastOneStays(paths, a[..|a| - 1], files, i);
    }
  }

  lemma {:induction false} LastFor(paths: Paths, a: Archive, i: nat) returns (last: nat)
    requires i < |a| && DestinationOf(paths, a[i]).Some?
    ensures i <= last < |a| && DestinationOf(paths, a[last]) == DestinationOf(paths, a[i])
    ensures forall j :: last < j < |a| ==> DestinationOf(paths, a[j]) != DestinationOf(paths, a[last])
  {
    last := |a| - 1;
    while DestinationOf(paths, a[last]) != DestinationOf(paths, a[i])
      invariant i <= last < |a|
      invariant forall j :: last < j < |a| ==> DestinationOf(paths, a[j]) != DestinationOf(paths, a[i])
      decreases last
    {
      last := last - 1;
    }
  }

  /** Restoring puts every entry in its place exactly when no two entries contend for one. */
  lemma {:induction false} RestoresAllIff(paths: Paths, a: Archive, files: Files)
    ensures HoldsAll(paths, a, Extracted(paths, a, files)) <==> Agree(paths, a)
  {
    var after := Extracted(paths, a, files);
    if Agree(paths, a) {
      forall i | 0 <= i < |a| && DestinationOf(paths, a[i]).Some?
        ensures DestinationOf(paths, a[i]).value in after && after[DestinationOf(paths, a[i]).value] == a[i].data {
        var last := LastFor(paths, a, i);
        LastOneStays(paths, a, files, last);
      }
    }
  }

  // ---------- Round trips ----------

  /** Entries of one backup that go to the same place on the host they came from hold the same file. */
  lemma {:induction false} OwnArchiveAgrees(paths: Paths, files: Files, rules: seq<string>, calendars: seq<string>,
                                            a: Archive)
    requires PlainIds(paths.plugins) && Archived(files, Sources(paths, rules, calendars)) == Some(a)
    ensures Agree(paths, a)
    ensures forall i :: 0 <= i < |a| ==> DestinationOf(paths, a[i]).Some? && DestinationOf(paths, a[i]).value in files
                                         && files[DestinationOf(paths, a[i]).value] == a[i].data
  {
    var sources := Sources(paths, rules, calendars);
    ArchivedEntries(files, sources);
    forall i | 0 <= i < |a|
      ensures DestinationOf(paths, a[i]).Some? && DestinationOf(paths, a[i]).value in files
              && files[DestinationOf(paths, a[i]).value] == a[i].data {
      assert a[i] in a;
      var s :| s in sources && s.path in files && a[i] == Entry(Some(NameOf(s.role)), files[s.path]);
      SourcesAreInPlace(paths, rules, calendars, s);
      DestinationIsPlace(paths, s.role);
    }
  }

  /**
    Restoring a backup on the host it was taken on: whatever became of the files since,
    every file that was read for it is back as it was, and nothing else is touched.
   */
  lemma {:induction false} RoundTrip(paths: Paths, files: Files, rules: seq<string>, calendars: seq<string>,
                                     a: Archive, since: Files)
    requires PlainIds(paths.plugins) && Archived(files, Sources(paths, rules, calendars)) == Some(a)
    ensures var after := Extracted(paths, a, since);
            && (forall s :: s in Sources(paths, rules, calendars) && s.path in files ==>
                      s.path in after && after[s.path] == files[s.path])
            && (forall q :: (forall s :: s in Sources(paths, rules, calendars) && s.path in files ==> s.path != q) ==>
                              (q in after <==> q in since) && (q in since ==> after[q] == since[q]))
  {
    var sources, after := Sources(paths, rules, calendars), Extracted(paths, a, since);
    OwnArchiveAgrees(paths, files, rules, calendars, a);
    RestoresAllIff(paths, a, since);
    ArchivedEntries(files, sources);
    forall s | s in sources && s.path in files ensures s.path in after && after[s.path] == files[s.path] {
      var e := Entry(Some(NameOf(s.role)), files[s.path]);
      var i :| 0 <= i < |a| && a[i] == e;
      SourcesAreInPlace(paths, rules, calendars, s);
      DestinationIsPlace(paths, s.role);
    }
    forall q | forall s :: s in sources && s.path in files ==> s.path != q
      ensures (q in after <==> q in since) && (q in since ==> after[q] == since[q]) {
      forall i | 0 <= i < |a| ensures DestinationOf(paths, a[i]) != Some(q) {
        assert a[i] in a;
        var s :| s in sources && s.path in files && a[i] == Entry(Some(NameOf(s.role)), files[s.path]);
        SourcesAreInPlace(paths, rules, calendars, s);
        DestinationIsPlace(paths, s.role);
      }
      TouchesNothingElse(paths, a, since, q);
    }
  }

  /** The other host has a place for everything this backup may hold: for a plugin, its own or one in the store. */
  predicate HasPlacesFor(there: Paths, here: Paths) {
    && (forall p :: p in here.plugins ==> PluginPlace(there, p.id).Some?)
    && there.config != []
    && (here.calendarsDir.Some? ==> there.calendarsDir.Some?)
  }

  predicate DistinctPlaces(there: Paths, sources: seq<Source>) {
    forall i, j :: 0 <= i < |sources| && 0 <= j < |sources| && sources[i].role != sources[j].role ==>
                     Place(there, sources[i].role) != Place(there, sources[j].role)
  }

  lemma {:induction false} SourceHasPlace(here: Paths, there: Paths, rules: seq<string>, calendars: seq<string>,
                                          s: Source)
    requires HasPlacesFor(there, here) && s in Sources(here, rules, calendars)
    ensures Place(there, s.role).Some?
  {
  }

  /**
    Restoring it on another host with a place for everything: every file is there, with
    its contents, at the place that has its role there, and nothing else is touched.
   */
  lemma {:induction false} MovesToOtherHost(here: Paths, there: Paths, files: Files, rules: seq<string>,
                                            calendars: seq<string>, a: Archive, since: Files)
    requires PlainIds(here.plugins) && Archived(files, Sources(here, rules, calendars)) == Some(a)
    requires HasPlacesFor(there, here) && DistinctPlaces(there, Sources(here, rules, calendars))
    ensures var after := Extracted(there, a, since);
            forall s :: s in Sources(here, rules, calendars) && s.path in files ==>
                          && Place(there, s.role).Some? && Place(there, s.role).value in after
                          && after[Place(there, s.role).value] == files[s.path]
    ensures var after := Extracted(there, a, since);
            forall q :: !IsArchivedPlace(there, Sources(here, rules, calendars), files, q) ==>
                          (q in after <==> q in since) && (q in since ==> after[q] == since[q])
  {
    var sources, after := Sources(here, rules, calendars), Extracted(there, a, since);
    ArchivedEntries(files, sources);
    OtherHostAgrees(here, there, files, rules, calendars, a);
    RestoresAllIff(there, a, since);
    forall s | s in sources && s.path in files
      ensures && Place(there, s.role).Some? && Place(there, s.role).value in after
              && after[Place(there, s.role).value] == files[s.path] {
      var e := Entry(Some(NameOf(s.role)), files[s.path]);
      var i :| 0 <= i < |a| && a[i] == e;
      SourceHasPlace(here, there, rules, calendars, s);
      DestinationIsPlace(there, s.role);
    }
    forall q | !IsArchivedPlace(there, sources, files, q)
      ensures (q in after <==> q in since) && (q in since ==> after[q] == since[q]) {
      OnlyArchivedPlaces(there, sources, files, a, q);
      TouchesNothingElse(there, a, since, q);
    }
  }

  /** The place, on this host, of something the archive holds. */
  ghost predicate IsArchivedPlace(paths: Paths, sources: seq<Source>, files: Files, q: Path) {
    exists s :: s in sources && s.path in files && Place(paths, s.role) == Some(q)
  }

  lemma {:induction false} OnlyArchivedPlaces(paths: Paths, sources: seq<Source>, files: Files, a: Archive, q: Path)
    requires Archived(files, sources) == Some(a) && !IsArchivedPlace(paths, sources, files, q)
    ensures !IsDestination(paths, a, q)
  {
    ArchivedEntries(files, sources);
    forall i | 0 <= i < |a| ensures DestinationOf(paths, a[i]) != Some(q) {
      assert a[i] in a;
      var s :| s in sources && s.path in files && a[i] == Entry(Some(NameOf(s.role)), files[s.path]);
      DestinationIsPlace(paths, s.role);
    }
  }

  lemma {:induction false} OtherHostAgrees(here: Paths, there: Paths, files: Files, rules: seq<string>,
                                           calendars: seq<string>, a: Archive)
    requires PlainIds(here.plugins) && Archived(files, Sources(here, rules, calendars)) == Some(a)
    requires DistinctPlaces(there, Sources(here, rules, calendars))
    ensures Agree(there, a)
  {
    var sources := Sources(here, rules, calendars);
    ArchivedEntries(files, sources);
    forall i, j | 0 <= i < j < |a| && Contend(there, a[i], a[j])
      ensures a[i].data == a[j].data {
      assert a[i] in a && a[j] in a;
      var s :| s in sources && s.path in files && a[i] == Entry(Some(NameOf(s.role)), files[s.path]);
      var t :| t in sources && t.path in files && a[j] == Entry(Some(NameOf(t.role)), files[t.path]);
      DestinationIsPlace(there, s.role);
      DestinationIsPlace(there, t.role);
      SamePlaceSameSource(here, there, rules, calendars, s, t);
    }
  }

  lemma {:induction false} SamePlaceSameSource(here: Paths, there: Paths, rules: seq<string>, calendars: seq<string>,
                                               s: Source, t: Source)
    requires PlainIds(here.plugins) && DistinctPlaces(there, Sources(here, rules, calendars))
    requires s in Sources(here, rules, calendars) && t in Sources(here, rules, calendars)
    requires Place(there, s.role) == Place(there, t.role)
    ensures s.path == t.path
  {
    var sources := Sources(here, rules, calendars);
    SourcesAreInPlace(here, rules, calendars, s);
    SourcesAreInPlace(here, rules, calendars, t);
    var m :| 0 <= m < |sources| && sources[m] == s;
    var n :| 0 <= n < |sources| && sources[n] == t;
    assert s.role == t.role;
  }

  // ---------- The plan is what happens ----------

  /** Every entry is listed once, as restored or as skipped, by whether it has a destination. */
  lemma {:induction false} PlanSharesOut(paths: Paths, a: Archive)
    ensures |RestoredNames(paths, a)| + |SkippedNames(paths, a)| == |a|
    ensures forall i :: 0 <= i < |a| && DestinationOf(paths, a[i]).Some? ==> a[i].name.value in RestoredNames(paths, a)
    ensures forall n :: n in RestoredNames(paths, a) ==>
              Destination(paths, n).Some? && exists i :: 0 <= i < |a| && a[i].name == Some(n)
    ensures forall i :: 0 <= i < |a| && DestinationOf(paths, a[i]).None? ==> SkipOf(a[i], i) in SkippedNames(paths, a)
    ensures forall n :: Named(n) in SkippedNames(paths, a) ==> Destination(paths, n).None?
  {
    if a != [] {
      var front := a[..|a| - 1];
      PlanSharesOut(paths, front);
      assert forall i :: 0 <= i < |front| ==> front[i] == a[i];
      forall i | 0 <= i < |a| && DestinationOf(paths, a[i]).None? ensures SkipOf(a[i], i) in SkippedNames(paths, a) {
        if i < |front| { assert SkipOf(front[i], i) in SkippedNames(paths, front); }
      }
    }
  }

  datatype Plan = Plan(restored: seq<Path>, skipped: seq<Skipped>)

  /** Read an archive and say what it would do; one with no state database is refused. */
  method PlanRestore(paths: Paths, a: Archive) returns (plan: Option<Plan>)
    ensures plan.Some? <==> exists i :: 0 <= i < |a| && a[i].name == Some(["state.redb"])
    ensures plan.Some? ==> plan.value == Plan(RestoredNames(paths, a), SkippedNames(paths, a))
  {
    var restored, skipped := [], [];
    for i := 0 to |a|
      invariant restored == RestoredNames(paths, a[..i]) && skipped == SkippedNames(paths, a[..i])
      invariant ["state.redb"] in restored <==> exists j :: 0 <= j < i && a[j].name == Some(["state.redb"])
    {
      assert a[..i + 1][..i] == a[..i];
      if a[i].name.None? {
        skipped := skipped + [UnsafeAt(i)];
      } else {
        var name := a[i].name.value;
        if Destination(paths, name).Some? {
          restored := restored + [name];
        } else {
          skipped := skipped + [Named(name)];
        }
      }
    }
    assert a[..|a|] == a;
    if ["state.redb"] !in restored { return None; }
    return Some(Plan(restored, skipped));
  }

  /** A host's files, and the two operations on them. */
  class Host {
    var files: Files

    method AddFile(zip: Archive, s: Source) returns (zip': Option<Archive>)
      ensures zip' == if s.path in files then Some(zip + [Entry(Some(NameOf(s.role)), files[s.path])])
                      else if s.required then None else Some(zip)
    {
      if s.path in files { return Some(zip + [Entry(Some(NameOf(s.role)), files[s.path])]); }
      if s.required { return None; }
      return Some(zip);
    }

    /** Each file in turn; a required one that is missing stops it. */
    method BuildZip(paths: Paths, rules: seq<string>, calendars: seq<string>) returns (zip: Option<Archive>)
      ensures zip == Archived(files, Sources(paths, rules, calendars))
    {
      var sources := Sources(paths, rules, calendars);
      zip := Some([]);
      for i := 0 to |sources|
        invariant zip.Some? && zip == Archived(files, sources[..i])
      {
        assert sources[..i + 1][..i] == sources[..i];
        zip := AddFile(zip.value, sources[i]);
        if zip.None? {
          ArchivedFails(files, sources, i);
          return;
        }
      }
      assert sources[..|sources|] == sources;
    }

    /** Copy the entries to their places, and report the same two lists the plan shows. */
    method ExtractRestore(paths: Paths, a: Archive) returns (restored: seq<Path>, skipped: seq<Skipped>)
      modifies this
      ensures files == Extracted(paths, a, old(files))
      ensures restored == RestoredNames(paths, a) && skipped == SkippedNames(paths, a)
    {
      restored, skipped := [], [];
      for i := 0 to |a|
        invariant files == Extracted(paths, a[..i], old(files))
        invariant restored == RestoredNames(paths, a[..i]) && skipped == SkippedNames(paths, a[..i])
      {
        assert a[..i + 1][..i] == a[..i];
        if a[i].name.None? {
          skipped := skipped + [UnsafeAt(i)];
          continue;
        }
        var name := a[i].name.value;
        var dest := Destination(paths, name);
        if dest.None? {
          skipped := skipped + [Named(name)];
          continue;
        }
        files := files[dest.value := a[i].data];
        restored := restored + [name];
      }
      assert a[..|a|] == a;
    }
  }

  lemma {:induction false} ArchivedFails(files: Files, sources: seq<Source>, i: nat)
    requires i < |sources| && Archived(files, sources[..i + 1]).None?
    ensures Archived(files, sources).None?
    decreases |sources|
  {
    if i == |sources| - 1 {
      assert sources[..i + 1] == sources;
    } else {
      assert sources[..|sources| - 1][..i + 1] == sources[..i + 1];
      ArchivedFails(files, sources[..|sources| - 1], i);
    }
  }
}
