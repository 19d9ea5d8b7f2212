/**
  The plugin-runtime host: installing a version onto disk and making what runs match
  what core wants. Every change to the disk or to the running set is one step, and the
  host may be killed between any two: the states below are all it can be found in.
 */
module Host {
  import opened Options
  import opened Traces

  datatype Manifest = Manifest(id: string, version: string)

  datatype Environment = Missing | Created | Complete

  /** One version's directory: the unpacked artifact, its environment, its config and the marker. */
  datatype Folder = Folder(manifest: Option<Manifest>, env: Environment, config: Option<string>, marker: bool)

  type Disk = map<(string, string), Folder>

  datatype Running = Running(version: string, config: string)

  datatype State = State(disk: Disk, running: map<string, Running>)

  datatype Desired = Desired(id: string, version: string, config: string)

  /** What the world will do for one plugin: what core serves, and which commands succeed. */
  datatype Delivery = Delivery(
    served: bool, manifest: Option<Manifest>, createsEnv: bool, installs: bool, launches: bool)

  /** One plugin's turn in a pass: what is wanted, and how the world meets it. */
  datatype Job = Job(want: Desired, world: Delivery)

  // ---------- Installing ----------

  predicate HasDotDot(s: string) {
    exists i :: 0 <= i < |s| - 1 && s[i] == '.' && s[i + 1] == '.'
  }

  predicate PlainName(s: string) {
    s != [] && '/' !in s && '\\' !in s && !HasDotDot(s) && s[0] != '.'
  }

  predicate IsInstalled(disk: Disk, id: string, version: string) {
    PlainName(id) && PlainName(version) && (id, version) in disk && disk[(id, version)].marker
  }

  /** Whether an install goes all the way to the marker. */
  predicate InstallSucceeds(id: string, version: string, w: Delivery) {
    PlainName(id) && PlainName(version) && w.manifest == Some(Manifest(id, version)) && w.createsEnv && w.installs
  }

  /** The directory after each step of filling it: unpacked, provisioned, configured, and only then marked. */
  function FillSteps(id: string, version: string, w: Delivery, config: string): seq<Folder> {
    if w.manifest.None? then [Folder(None, Missing, None, false)]
    else
      var unpacked := [Folder(None, Missing, None, false), Folder(w.manifest, Missing, None, false)];
      if w.manifest != Some(Manifest(id, version)) || !w.createsEnv then unpacked
      else if !w.installs then unpacked + [Folder(w.manifest, Created, None, false)]
      else
        unpacked + [Folder(w.manifest, Created, None, false),
                    Folder(w.manifest, Complete, None, false),
                    Folder(w.manifest, Complete, Some(config), false),
                    Folder(w.manifest, Complete, Some(config), true)]
  }

  function Placed(cleared: Disk, k: (string, string), folders: seq<Folder>): seq<Disk> {
    seq(|folders|, i requires 0 <= i < |folders| => cleared[k := folders[i]])
  }

  /** The disk after each step of an install: the directory cleared, filled, and on failure cleared again. */
  function InstallSteps(disk: Disk, id: string, version: string, w: Delivery, config: string): seq<Disk> {
    if !PlainName(id) || !PlainName(version) then []
    else
      var k := (id, version);
      var cleared := disk - {k};
      [cleared] + Placed(cleared, k, FillSteps(id, version, w, config))
      + (if InstallSucceeds(id, version, w) then [] else [cleared])
  }

  // ---------- Converging ----------

  datatype Outcome = Unchanged | Started | Restarted | Failed

  predicate RunsAs(running: map<string, Running>, d: Desired) {
    d.id in running && running[d.id] == Running(d.version, d.config)
  }

  predicate ProvisionSucceeds(disk: Disk, d: Desired, w: Delivery) {
    if IsInstalled(disk, d.id, d.version) then disk[(d.id, d.version)].manifest.Some?
    else w.served && InstallSucceeds(d.id, d.version, w)
  }

  /** Reusing what is on disk rewrites only the config; otherwise the artifact is fetched and installed. */
  function ProvisionSteps(disk: Disk, d: Desired, w: Delivery): seq<Disk> {
    if IsInstalled(disk, d.id, d.version) then
      if disk[(d.id, d.version)].manifest.Some?
      then [disk[(d.id, d.version) := disk[(d.id, d.version)].(config := Some(d.config))]] else []
    else if w.served then InstallSteps(disk, d.id, d.version, w, d.config)
    else []
  }

  function OutcomeOf(s: State, d: Desired, w: Delivery): Outcome {
    if RunsAs(s.running, d) then Unchanged
    else if !ProvisionSucceeds(s.disk, d, w) || !w.launches then Failed
    else if d.id in s.running then Restarted
    else Started
  }

  function WithDisk(disks: seq<Disk>, running: map<string, Running>): seq<State> {
    seq(|disks|, i requires 0 <= i < |disks| => State(disks[i], running))
  }

  lemma WithDiskJoin(a: seq<Disk>, b: seq<Disk>, c: seq<Disk>, running: map<string, Running>)
    ensures WithDisk(a + b + c, running) == WithDisk(a, running) + WithDisk(b, running) + WithDisk(c, running)
  {
  }

  /** The old one, if there is one, stops; then the new one starts. */
  function LaunchSteps(s: State, d: Desired): seq<State> {
    var stopped := s.running - {d.id};
    (if d.id in s.running then [State(s.disk, stopped)] else [])
    + [State(s.disk, stopped[d.id := Running(d.version, d.config)])]
  }

  /** Provision first; only then stop what runs and start the new. */
  function ConvergeOneSteps(s: State, d: Desired, w: Delivery): seq<State> {
    if RunsAs(s.running, d) then []
    else
      var provisioned := WithDisk(ProvisionSteps(s.disk, d, w), s.running);
      if OutcomeOf(s, d, w) == Failed then provisioned else provisioned + LaunchSteps(LastOr(provisioned, s), d)
  }

  function Turn(s: State, j: Job): seq<State> {
    ConvergeOneSteps(s, j.want, j.world)
  }

  function TurnOutcome(s: State, j: Job): Outcome {
    OutcomeOf(s, j.want, j.world)
  }

  function WithoutPlugin(disk: Disk, id: string): Disk {
    if PlainName(id) then map k | k in disk && k.0 != id :: disk[k] else disk
  }

  /** A departed plugin is stopped, and then everything of it is removed. */
  function Depart(s: State, id: string): seq<State> {
    [State(s.disk, s.running - {id}), State(WithoutPlugin(s.disk, id), s.running - {id})]
  }

  /** The states of a pass: first the departed go, then each wanted plugin has its turn. */
  function PassSteps(s: State, departed: seq<string>, jobs: seq<Job>): seq<State> {
    Passed(Depart, s, departed) + Passed(Turn, Final(Depart, s, departed), jobs)
  }

  function AfterPass(s: State, departed: seq<string>, jobs: seq<Job>): State {
    Final(Turn, Final(Depart, s, departed), jobs)
  }

  function PassOutcomes(s: State, departed: seq<string>, jobs: seq<Job>): (r: seq<Outcome>)
    ensures |r| == |jobs|
  {
    Reported(Turn, TurnOutcome, Final(Depart, s, departed), jobs)
  }

  // ---------- Safe wherever it stops ----------

  /** A marker stands only on a complete install of that very plugin and version. */
  predicate MarkersHonest(disk: Disk) {
    forall k :: k in disk && disk[k].marker ==>
                  && disk[k].manifest == Some(Manifest(k.0, k.1)) && disk[k].env == Complete && disk[k].config.Some?
                  && PlainName(k.0) && PlainName(k.1)
  }

  /** And whatever runs, runs from a marked directory. */
  predicate Safe(s: State) {
    && MarkersHonest(s.disk)
    && forall id :: id in s.running ==> IsInstalled(s.disk, id, s.running[id].version)
  }

  /** An install changes no other directory and is unmarked until its last step. */
  lemma InstallStepsShape(disk: Disk, id: string, version: string, w: Delivery, config: string, i: nat)
    requires i < |InstallSteps(disk, id, version, w, config)|
    ensures var d := InstallSteps(disk, id, version, w, config)[i];
            && (forall k :: k != (id, version) ==> (k in d <==> k in disk) && (k in disk ==> d[k] == disk[k]))
            && ((id, version) in d && d[(id, version)].marker ==>
                  && InstallSucceeds(id, version, w)
                  && d[(id, version)] == Folder(Some(Manifest(id, version)), Complete, Some(config), true))
  {
  }

  lemma InstallEnds(disk: Disk, id: string, version: string, w: Delivery, config: string)
    requires PlainName(id) && PlainName(version)
    ensures var d := LastOr(InstallSteps(disk, id, version, w, config), disk);
            if InstallSucceeds(id, version, w) then IsInstalled(d, id, version) else d == disk - {(id, version)}
  {
  }

  lemma {:induction false} ProvisionStepsSafe(s: State, d: Desired, w: Delivery, i: nat)
    requires Safe(s) && !RunsAs(s.running, d) && i < |ProvisionSteps(s.disk, d, w)|
    ensures Safe(State(ProvisionSteps(s.disk, d, w)[i], s.running))
  {
    if !IsInstalled(s.disk, d.id, d.version) {
      InstallStepsShape(s.disk, d.id, d.version, w, d.config, i);
    }
  }

  lemma {:induction false} TurnSafe(s: State, j: Job)
    requires Safe(s)
    ensures forall x :: x in Turn(s, j) ==> Safe(x)
  {
    var d, w := j.want, j.world;
    if !RunsAs(s.running, d) {
      var disks := ProvisionSteps(s.disk, d, w);
      forall i | 0 <= i < |disks| ensures Safe(State(disks[i], s.running)) {
        ProvisionStepsSafe(s, d, w, i);
      }
      var last := LastOr(WithDisk(disks, s.running), s);
      assert Safe(last);
      if ProvisionSucceeds(s.disk, d, w) {
        if !IsInstalled(s.disk, d.id, d.version) {
          InstallEnds(s.disk, d.id, d.version, w, d.config);
        }
        assert IsInstalled(last.disk, d.id, d.version);
      }
    }
  }

  lemma DepartSafe(s: State, id: string)
    requires Safe(s)
    ensures forall x :: x in Depart(s, id) ==> Safe(x)
  {
  }

  /**
    In every state a pass goes through, and so wherever the host is killed, markers are honest
    and what runs is installed.
   */
  lemma {:induction false} PassSafe(s: State, departed: seq<string>, jobs: seq<Job>)
    requires Safe(s)
    ensures forall x :: x in PassSteps(s, departed, jobs) ==> Safe(x)
    ensures Safe(AfterPass(s, departed, jobs))
  {
    forall s, id, x | Safe(s) && x in Depart(s, id) ensures Safe(x) { DepartSafe(s, id); }
    PassedKeep(Depart, Safe, s, departed);
    forall s, j, x | Safe(s) && x in Turn(s, j) ensures Safe(x) { TurnSafe(s, j); }
    PassedKeep(Turn, Safe, Final(Depart, s, departed), jobs);
  }

  /** A pass runs to its end, or the host is killed after any of its steps and starts again with nothing running. */
  datatype Happening =
    | Ran(departed: seq<string>, jobs: seq<Job>)
    | Killed(departed: seq<string>, jobs: seq<Job>, at: nat)

  function After(s: State, h: Happening): State {
    match h
    case Ran(departed, jobs) => AfterPass(s, departed, jobs)
    case Killed(departed, jobs, at) =>
      var steps := PassSteps(s, departed, jobs);
      State(if at < |steps| then steps[at].disk else s.disk, map[])
  }

  function AfterHappenings(s: State, hs: seq<Happening>): State {
    if hs == [] then s else After(AfterHappenings(s, hs[..|hs| - 1]), hs[|hs| - 1])
  }

  lemma {:induction false} AfterSafe(s: State, h: Happening)
    requires Safe(s)
    ensures Safe(After(s, h))
  {
    PassSafe(s, h.departed, h.jobs);
    if h.Killed? {
      var steps := PassSteps(s, h.departed, h.jobs);
      if h.at < |steps| {
        assert steps[h.at] in steps;
      }
    }
  }

  lemma {:induction false} HappeningsSafe(hs: seq<Happening>)
    ensures Safe(AfterHappenings(State(map[], map[]), hs))
  {
    if hs != [] {
      HappeningsSafe(hs[..|hs| - 1]);
      AfterSafe(AfterHappenings(State(map[], map[]), hs[..|hs| - 1]), hs[|hs| - 1]);
    }
  }

  /** From an empty disk, over any passes and any kills, every state is safe, the ones inside the next pass included. */
  lemma {:induction false} RunSafe(hs: seq<Happening>, departed: seq<string>, jobs: seq<Job>)
    ensures Safe(AfterHappenings(State(map[], map[]), hs))
    ensures forall x :: x in PassSteps(AfterHappenings(State(map[], map[]), hs), departed, jobs) ==> Safe(x)
  {
    HappeningsSafe(hs);
    PassSafe(AfterHappenings(State(map[], map[]), hs), departed, jobs);
  }

  /** An install is only begun for a version that nothing runs: no live plugin's directory is ever cleared. */
  lemma InstallSparesLive(s: State, d: Desired, id: string)
    requires Safe(s) && id in s.running && !IsInstalled(s.disk, d.id, d.version)
    ensures (id, s.running[id].version) != (d.id, d.version)
  {
  }

  // ---------- What a pass achieves ----------

  function IdsOf(jobs: seq<Job>): set<string> {
    set j | j in jobs :: j.want.id
  }

  predicate DistinctIds(jobs: seq<Job>) {
    forall i, j :: 0 <= i < j < |jobs| ==> jobs[i].want.id != jobs[j].want.id
  }

  /** This plugin's entry, or its absence, is the same in both. */
  predicate SameEntry(r: map<string, Running>, r': map<string, Running>, id: string) {
    (id in r' <==> id in r) && (id in r ==> r'[id] == r[id])
  }

  predicate OutcomeFits(r: map<string, Running>, r': map<string, Running>, d: Desired, o: Outcome) {
    && (o == Unchanged <==> RunsAs(r, d))
    && (o == Started ==> d.id !in r)
    && (o == Restarted ==> d.id in r)
    && (if o == Failed then SameEntry(r, r', d.id) else RunsAs(r', d))
  }

  /** Each plugin listed is as desired or, having failed, as it was; no other entry changed. */
  ghost predicate Achieved(r: map<string, Running>, r': map<string, Running>, jobs: seq<Job>, outcomes: seq<Outcome>) {
    && |outcomes| == |jobs|
    && (forall id :: id !in IdsOf(jobs) ==> SameEntry(r, r', id))
    && forall i :: 0 <= i < |jobs| ==> OutcomeFits(r, r', jobs[i].want, outcomes[i])
  }

  lemma TurnAchieves(s: State, j: Job)
    ensures var s' := LastOr(Turn(s, j), s);
            && (forall id :: id != j.want.id ==> SameEntry(s.running, s'.running, id))
            && OutcomeFits(s.running, s'.running, j.want, TurnOutcome(s, j))
  {
  }

  lemma {:induction false} AchievedCons(r: map<string, Running>, r1: map<string, Running>, r2: map<string, Running>,
                                        jobs: seq<Job>, outcomes: seq<Outcome>)
    requires DistinctIds(jobs) && |outcomes| == |jobs| > 0
    requires forall id :: id != jobs[0].want.id ==> SameEntry(r, r1, id)
    requires OutcomeFits(r, r1, jobs[0].want, outcomes[0])
    requires Achieved(r1, r2, jobs[1..], outcomes[1..])
    ensures Achieved(r, r2, jobs, outcomes)
  {
    var id0, rest := jobs[0].want.id, jobs[1..];
    assert jobs == [jobs[0]] + rest;
    assert IdsOf(jobs) == {id0} + IdsOf(rest);
    assert id0 !in IdsOf(rest);
    forall id | id !in IdsOf(jobs) ensures SameEntry(r, r2, id) {
      assert SameEntry(r, r1, id) && SameEntry(r1, r2, id);
    }
    assert SameEntry(r1, r2, id0);
    forall i | 0 <= i < |jobs| ensures OutcomeFits(r, r2, jobs[i].want, outcomes[i]) {
      if i > 0 {
        assert jobs[i] == rest[i - 1] && OutcomeFits(r1, r2, rest[i - 1].want, outcomes[1..][i - 1]);
        assert SameEntry(r, r1, jobs[i].want.id);
      }
    }
  }

  lemma {:induction false} AllAchieves(s: State, jobs: seq<Job>)
    requires DistinctIds(jobs)
    ensures Achieved(s.running, Final(Turn, s, jobs).running, jobs, Reported(Turn, TurnOutcome, s, jobs))
    decreases jobs
  {
    if jobs != [] {
      var s1 := LastOr(Turn(s, jobs[0]), s);
      TurnAchieves(s, jobs[0]);
      AllAchieves(s1, jobs[1..]);
      FinalCons(Turn, s, jobs);
      AchievedCons(s.running, s1.running, Final(Turn, s, jobs).running, jobs, Reported(Turn, TurnOutcome, s, jobs));
    }
  }

  lemma {:induction false} DepartAchieves(s: State, departed: seq<string>)
    ensures var s' := Final(Depart, s, departed);
            && (forall id :: id in s'.running <==> id in s.running && id !in departed)
            && (forall id :: id in s'.running ==> s'.running[id] == s.running[id])
            && (forall k :: k in s'.disk <==> k in s.disk && !(k.0 in departed && PlainName(k.0)))
            && (forall k :: k in s'.disk ==> s'.disk[k] == s.disk[k])
    decreases departed
  {
    if departed != [] {
      DepartAchieves(LastOr(Depart(s, departed[0]), s), departed[1..]);
      FinalCons(Depart, s, departed);
      assert departed == [departed[0]] + departed[1..];
    }
  }

  /** What runs but is not wanted, each once, in whatever order the map gives them. */
  ghost predicate ListsDeparted(departed: seq<string>, s: State, jobs: seq<Job>) {
    && (forall id :: id in departed <==> id in s.running && id !in IdsOf(jobs))
    && forall i, j :: 0 <= i < j < |departed| ==> departed[i] != departed[j]
  }

  /**
    After a pass over distinct ids: every plugin that did not fail runs exactly as
    desired, every one that failed is as it was before, and nothing else runs.
   */
  lemma {:induction false} PassAchieves(s: State, departed: seq<string>, jobs: seq<Job>)
    requires DistinctIds(jobs) && ListsDeparted(departed, s, jobs)
    ensures var s', outcomes := AfterPass(s, departed, jobs), PassOutcomes(s, departed, jobs);
            && s'.running.Keys <= IdsOf(jobs)
            && forall i :: 0 <= i < |jobs| ==> OutcomeFits(s.running, s'.running, jobs[i].want, outcomes[i])
  {
    var mid := Final(Depart, s, departed);
    DepartAchieves(s, departed);
    AllAchieves(mid, jobs);
    var s', outcomes := AfterPass(s, departed, jobs), PassOutcomes(s, departed, jobs);
    forall id | id in s'.running ensures id in IdsOf(jobs) {
      assert id !in IdsOf(jobs) ==> SameEntry(mid.running, s'.running, id);
    }
    forall i | 0 <= i < |jobs| ensures OutcomeFits(s.running, s'.running, jobs[i].want, outcomes[i]) {
      assert jobs[i].want.id in IdsOf(jobs);
      assert SameEntry(s.running, mid.running, jobs[i].want.id);
      assert OutcomeFits(mid.running, s'.running, jobs[i].want, outcomes[i]);
    }
  }

  /** What was started runs from a complete install that holds the very config it was asked for. */
  predicate ConfigFits(disk: Disk, d: Desired, o: Outcome) {
    o == Started || o == Restarted ==>
      && (d.id, d.version) in disk
      && disk[(d.id, d.version)] == Folder(Some(Manifest(d.id, d.version)), Complete, Some(d.config), true)
  }

  predicate SameFolder(disk: Disk, disk': Disk, k: (string, string)) {
    (k in disk' <==> k in disk) && (k in disk ==> disk'[k] == disk[k])
  }

  lemma {:induction false} ProvisionConfigures(disk: Disk, d: Desired, w: Delivery)
    requires MarkersHonest(disk)
    ensures var disk' := LastOr(ProvisionSteps(disk, d, w), disk);
            && (ProvisionSucceeds(disk, d, w) ==> ConfigFits(disk', d, Started))
            && forall k: (string, string) :: k.0 != d.id ==> SameFolder(disk, disk', k)
  {
  }

  lemma {:induction false} TurnDisk(s: State, j: Job)
    ensures LastOr(Turn(s, j), s).disk
            == if RunsAs(s.running, j.want) then s.disk else LastOr(ProvisionSteps(s.disk, j.want, j.world), s.disk)
  {
  }

  lemma {:induction false} TurnConfigures(s: State, j: Job)
    requires Safe(s)
    ensures var s' := LastOr(Turn(s, j), s);
            && Safe(s')
            && ConfigFits(s'.disk, j.want, TurnOutcome(s, j))
            && forall k: (string, string) :: k.0 != j.want.id ==> SameFolder(s.disk, s'.disk, k)
  {
    TurnSafe(s, j);
    var steps := Turn(s, j);
    assert steps != [] ==> steps[|steps| - 1] in steps;
    TurnDisk(s, j);
    ProvisionConfigures(s.disk, j.want, j.world);
  }

  ghost predicate AllConfigured(disk: Disk, disk': Disk, jobs: seq<Job>, outcomes: seq<Outcome>) {
    && |outcomes| == |jobs|
    && (forall k: (string, string) :: k.0 !in IdsOf(jobs) ==> SameFolder(disk, disk', k))
    && forall i :: 0 <= i < |jobs| ==> ConfigFits(disk', jobs[i].want, outcomes[i])
  }

  lemma {:induction false} ConfiguredCons(disk: Disk, disk1: Disk, disk2: Disk, jobs: seq<Job>, outcomes: seq<Outcome>)
    requires DistinctIds(jobs) && |outcomes| == |jobs| > 0
    requires forall k: (string, string) :: k.0 != jobs[0].want.id ==> SameFolder(disk, disk1, k)
    requires ConfigFits(disk1, jobs[0].want, outcomes[0])
    requires AllConfigured(disk1, disk2, jobs[1..], outcomes[1..])
    ensures AllConfigured(disk, disk2, jobs, outcomes)
  {
  }

  lemma {:induction false} JobsConfigured(s: State, jobs: seq<Job>)
    requires Safe(s) && DistinctIds(jobs)
    ensures AllConfigured(s.disk, Final(Turn, s, jobs).disk, jobs, Reported(Turn, TurnOutcome, s, jobs))
    decreases jobs
  {
    if jobs != [] {
      var s1 := LastOr(Turn(s, jobs[0]), s);
      TurnConfigures(s, jobs[0]);
      JobsConfigured(s1, jobs[1..]);
      FinalCons(Turn, s, jobs);
      ConfiguredCons(s.disk, s1.disk, Final(Turn, s, jobs).disk, jobs, Reported(Turn, TurnOutcome, s, jobs));
    }
  }

  /** After a pass whatever it started or restarted has a complete install on disk with exactly its desired config. */
  lemma {:induction false} PassConfigures(s: State, departed: seq<string>, jobs: seq<Job>)
    requires Safe(s) && DistinctIds(jobs)
    ensures var disk, outcomes := AfterPass(s, departed, jobs).disk, PassOutcomes(s, departed, jobs);
            forall i :: 0 <= i < |jobs| ==> ConfigFits(disk, jobs[i].want, outcomes[i])
  {
    forall s, id, x | Safe(s) && x in Depart(s, id) ensures Safe(x) { DepartSafe(s, id); }
    PassedKeep(Depart, Safe, s, departed);
    JobsConfigured(Final(Depart, s, departed), jobs);
  }

  lemma {:induction false} AllUnchanged(s: State, jobs: seq<Job>)
    requires forall i :: 0 <= i < |jobs| ==> RunsAs(s.running, jobs[i].want)
    ensures Passed(Turn, s, jobs) == []
    ensures forall i :: 0 <= i < |jobs| ==> Reported(Turn, TurnOutcome, s, jobs)[i] == Unchanged
    decreases jobs
  {
    if jobs != [] {
      AllUnchanged(s, jobs[1..]);
    }
  }

  /** Repeating a pass in which nothing failed changes nothing, on disk or running, whatever the world now does. */
  lemma {:induction false} RepeatedPassIsIdle(s: State, departed: seq<string>, jobs: seq<Job>, departed': seq<string>,
                                              jobs': seq<Job>)
    requires DistinctIds(jobs) && ListsDeparted(departed, s, jobs)
    requires Failed !in PassOutcomes(s, departed, jobs)
    requires |jobs'| == |jobs| && forall i :: 0 <= i < |jobs| ==> jobs'[i].want == jobs[i].want
    requires ListsDeparted(departed', AfterPass(s, departed, jobs), jobs')
    ensures departed' == []
    ensures PassSteps(AfterPass(s, departed, jobs), departed', jobs') == []
  {
    var s', outcomes := AfterPass(s, departed, jobs), PassOutcomes(s, departed, jobs);
    assert departed' != [] ==> departed'[0] in departed';
    PassAchieves(s, departed, jobs);
    forall i | 0 <= i < |jobs'| ensures RunsAs(s'.running, jobs'[i].want) {
      assert outcomes[i] in outcomes && OutcomeFits(s.running, s'.running, jobs[i].want, outcomes[i]);
    }
    forall id | id in IdsOf(jobs) ensures id in IdsOf(jobs') {
      var i :| 0 <= i < |jobs| && jobs[i].want.id == id;
      assert jobs'[i] in jobs';
    }
    assert forall id :: id !in departed';
    AllUnchanged(s', jobs');
  }

  // ---------- The report of a pass ----------

  /** The ids, in the list's order, whose turn had this outcome. */
  function Named(jobs: seq<Job>, outcomes: seq<Outcome>, o: Outcome): seq<string>
    requires |outcomes| == |jobs|
  {
    if jobs == [] then []
    else Named(jobs[..|jobs| - 1], outcomes[..|jobs| - 1], o)
         + (if outcomes[|jobs| - 1] == o then [jobs[|jobs| - 1].want.id] else [])
  }

  function Ids(jobs: seq<Job>): seq<string> {
    seq(|jobs|, i requires 0 <= i < |jobs| => jobs[i].want.id)
  }

  datatype Pass = Pass(
    started: seq<string>, restarted: seq<string>, asBefore: seq<string>, stopped: seq<string>, failed: seq<string>)

  /** Each plugin is listed under its outcome. */
  predicate Reports(pass: Pass, jobs: seq<Job>, outcomes: seq<Outcome>) {
    && |outcomes| == |jobs|
    && pass.started == Named(jobs, outcomes, Started)
    && pass.restarted == Named(jobs, outcomes, Restarted)
    && pass.asBefore == Named(jobs, outcomes, Unchanged)
    && pass.failed == Named(jobs, outcomes, Failed)
  }

  lemma {:induction false} IdsCount(jobs: seq<Job>, id: string)
    requires |jobs| > 0
    ensures multiset(Ids(jobs))[id]
            == multiset(Ids(jobs[..|jobs| - 1]))[id] + (if jobs[|jobs| - 1].want.id == id then 1 else 0)
  {
    assert Ids(jobs) == Ids(jobs[..|jobs| - 1]) + [jobs[|jobs| - 1].want.id];
  }

  lemma NamedCount(jobs: seq<Job>, outcomes: seq<Outcome>, o: Outcome, id: string)
    requires |outcomes| == |jobs| > 0
    ensures multiset(Named(jobs, outcomes, o))[id]
            == multiset(Named(jobs[..|jobs| - 1], outcomes[..|jobs| - 1], o))[id]
               + (if outcomes[|jobs| - 1] == o && jobs[|jobs| - 1].want.id == id then 1 else 0)
  {
  }

  /** The four lists of a report share out the desired list: each id in exactly one, as often as it was asked for. */
  lemma {:induction false} ReportPartitions(pass: Pass, jobs: seq<Job>, outcomes: seq<Outcome>, id: string)
    requires Reports(pass, jobs, outcomes)
    ensures multiset(pass.started)[id] + multiset(pass.restarted)[id]
            + multiset(pass.asBefore)[id] + multiset(pass.failed)[id]
            == multiset(Ids(jobs))[id]
    decreases jobs
  {
    if jobs != [] {
      var jobs', outcomes' := jobs[..|jobs| - 1], outcomes[..|jobs| - 1];
      ReportPartitions(Pass(Named(jobs', outcomes', Started), Named(jobs', outcomes', Restarted),
                            Named(jobs', outcomes', Unchanged), [], Named(jobs', outcomes', Failed)),
                       jobs', outcomes', id);
      IdsCount(jobs, id);
      NamedCount(jobs, outcomes, Started, id);
      NamedCount(jobs, outcomes, Restarted, id);
      NamedCount(jobs, outcomes, Unchanged, id);
      NamedCount(jobs, outcomes, Failed, id);
    }
  }

  function Noted(pass: Pass, id: string, o: Outcome): Pass {
    match o
    case Unchanged => pass.(asBefore := pass.asBefore + [id])
    case Started => pass.(started := pass.started + [id])
    case Restarted => pass.(restarted := pass.restarted + [id])
    case Failed => pass.(failed := pass.failed + [id])
  }

  lemma {:induction false} ReportsSnoc(pass: Pass, jobs: seq<Job>, outcomes: seq<Outcome>, j: Job, o: Outcome)
    requires Reports(pass, jobs, outcomes)
    ensures Reports(Noted(pass, j.want.id, o), jobs + [j], outcomes + [o])
  {
  }

  /** The jobs have been worked through from s: this is the state, the trail and the report. */
  ghost predicate WorkedThrough(s: State, t0: seq<State>, jobs: seq<Job>, now: State, t: seq<State>, pass: Pass) {
    && now == Final(Turn, s, jobs)
    && t == t0 + Passed(Turn, s, jobs)
    && Reports(pass, jobs, Reported(Turn, TurnOutcome, s, jobs))
  }

  lemma {:induction false} WorkOneMore(s: State, t0: seq<State>, jobs: seq<Job>, i: nat, now: State, t: seq<State>,
                                       pass: Pass, t': seq<State>)
    requires i < |jobs| && WorkedThrough(s, t0, jobs[..i], now, t, pass)
    requires t' == t + Turn(now, jobs[i])
    ensures WorkedThrough(s, t0, jobs[..i + 1], LastOr(Turn(now, jobs[i]), now), t',
                          Noted(pass, jobs[i].want.id, TurnOutcome(now, jobs[i])))
  {
    TakeOneMore(Turn, TurnOutcome, s, jobs, i);
    Joined(t0, Passed(Turn, s, jobs[..i]), t, Turn(now, jobs[i]), t');
    ReportsSnoc(pass, jobs[..i], Reported(Turn, TurnOutcome, s, jobs[..i]), jobs[i], TurnOutcome(now, jobs[i]));
    assert jobs[..i + 1] == jobs[..i] + [jobs[i]];
  }

  /** The host itself. The trail holds every state it has been in since it was made. */
  class Reconciler {
    var disk: Disk
    var running: map<string, Running>
    ghost var trail: seq<State>

    ghost function Now(): State reads this {
      State(disk, running)
    }

    method Stop(id: string)
      modifies this
      ensures disk == old(disk) && running == old(running) - {id}
      ensures trail == old(trail) + (if id in old(running) then [Now()] else [])
    {
      if id in running {
        running := running - {id};
        trail := trail + [Now()];
      }
    }

    /** Clear, unpack, check, provision, configure, mark: a failure on the way removes the directory again. */
    method Install(id: string, version: string, w: Delivery, config: string) returns (ok: bool)
      modifies this
      ensures running == old(running)
      ensures ok == InstallSucceeds(id, version, w)
      ensures trail == old(trail) + WithDisk(InstallSteps(old(disk), id, version, w, config), running)
      ensures disk == LastOr(InstallSteps(old(disk), id, version, w, config), old(disk))
    {
      if !PlainName(id) || !PlainName(version) { return false; }
      var k := (id, version);
      disk := disk - {k};
      ghost var cleared := disk;
      trail := trail + [Now()];
      ok := InstallInto(id, version, w, config);
      if !ok {
        disk := disk - {k};
        assert disk == cleared;
        trail := trail + [Now()];
      }
      WithDiskJoin([cleared], Placed(cleared, k, FillSteps(id, version, w, config)),
                   if ok then [] else [cleared], running);
    }

    method PutFolder(k: (string, string), f: Folder, ghost cleared: Disk, ghost t0: seq<State>,
                     ghost filled: seq<Folder>)
      requires disk - {k} == cleared - {k}
      requires trail == t0 + WithDisk(Placed(cleared, k, filled), running)
      modifies this
      ensures running == old(running) && disk == cleared[k := f]
      ensures trail == t0 + WithDisk(Placed(cleared, k, filled + [f]), running)
    {
      disk := disk[k := f];
      assert disk == cleared[k := f] by {
        forall x | x != k ensures (x in disk <==> x in cleared) && (x in cleared ==> disk[x] == cleared[x]) {
          assert (x in old(disk) - {k} <==> x in cleared - {k}) && (x in cleared ==>
                    (old(disk) - {k})[x] == (cleared - {k})[x]);
        }
      }
      trail := trail + [Now()];
    }

    method InstallInto(id: string, version: string, w: Delivery, config: string) returns (ok: bool)
      modifies this
      ensures running == old(running)
      ensures ok == (w.manifest == Some(Manifest(id, version)) && w.createsEnv && w.installs)
      ensures var disks := Placed(old(disk), (id, version), FillSteps(id, version, w, config));
              && trail == old(trail) + WithDisk(disks, running)
              && disk == LastOr(disks, old(disk))
    {
      var k := (id, version);
      ghost var t0, filled := trail, [];
      PutFolder(k, Folder(None, Missing, None, false), old(disk), t0, filled);
      filled := filled + [disk[k]];
      if w.manifest.None? { return false; }
      PutFolder(k, disk[k].(manifest := w.manifest), old(disk), t0, filled);
      filled := filled + [disk[k]];
      if w.manifest.value.id != id || w.manifest.value.version != version || !w.createsEnv { return false; }
      PutFolder(k, disk[k].(env := Created), old(disk), t0, filled);
      filled := filled + [disk[k]];
      if !w.installs { return false; }
      PutFolder(k, disk[k].(env := Complete), old(disk), t0, filled);
      filled := filled + [disk[k]];
      PutFolder(k, disk[k].(config := Some(config)), old(disk), t0, filled);
      filled := filled + [disk[k]];
      PutFolder(k, disk[k].(marker := true), old(disk), t0, filled);
      filled := filled + [disk[k]];
      assert filled == FillSteps(id, version, w, config);
      return true;
    }

    method Provision(d: Desired, w: Delivery) returns (ok: bool)
      modifies this
      ensures running == old(running)
      ensures ok == ProvisionSucceeds(old(disk), d, w)
      ensures trail == old(trail) + WithDisk(ProvisionSteps(old(disk), d, w), running)
      ensures disk == LastOr(ProvisionSteps(old(disk), d, w), old(disk))
    {
      var k := (d.id, d.version);
      if IsInstalled(disk, d.id, d.version) {
        if disk[k].manifest.None? { return false; }
        disk := disk[k := disk[k].(config := Some(d.config))];
        trail := trail + [Now()];
        return true;
      }
      if !w.served { return false; }
      ok := Install(d.id, d.version, w, d.config);
    }

    method ConvergeOne(d: Desired, w: Delivery) returns (o: Outcome)
      modifies this
      ensures o == TurnOutcome(old(Now()), Job(d, w))
      ensures Now() == LastOr(Turn(old(Now()), Job(d, w)), old(Now()))
      ensures trail == old(trail) + Turn(old(Now()), Job(d, w))
    {
      if d.id in running && running[d.id].version == d.version && running[d.id].config == d.config {
        return Unchanged;
      }
      var replacing := d.id in running;
      var ok := Provision(d, w);
      if !ok || !w.launches { return Failed; }
      ghost var mid, provisioned := Now(), trail;
      Launch(d);
      Joined(old(trail), WithDisk(ProvisionSteps(old(disk), d, w), old(running)), provisioned,
             LaunchSteps(mid, d), trail);
      return if replacing then Restarted else Started;
    }

    method Launch(d: Desired)
      modifies this
      ensures Now() == LastOr(LaunchSteps(old(Now()), d), old(Now()))
      ensures trail == old(trail) + LaunchSteps(old(Now()), d)
    {
      if d.id in running { Stop(d.id); }
      assert running == old(running) - {d.id};
      running := running[d.id := Running(d.version, d.config)];
      trail := trail + [Now()];
    }

    /** The ids that run and are not wanted, in an order the map picks. */
    method Departed(jobs: seq<Job>) returns (departed: seq<string>)
      ensures ListsDeparted(departed, Now(), jobs)
    {
      departed := [];
      var left := running.Keys - IdsOf(jobs);
      while left != {}
        invariant forall id :: id in departed || id in left <==> id in running && id !in IdsOf(jobs)
        invariant forall id :: id in departed ==> id !in left
        invariant forall i, j :: 0 <= i < j < |departed| ==> departed[i] != departed[j]
        decreases left
      {
        var id :| id in left;
        left := left - {id};
        departed := departed + [id];
      }
    }

    /** One pass: it goes through exactly the specified steps, and reports each plugin under its outcome. */
    method Converge(jobs: seq<Job>) returns (pass: Pass)
      modifies this
      ensures ListsDeparted(pass.stopped, old(Now()), jobs)
      ensures Now() == AfterPass(old(Now()), pass.stopped, jobs)
      ensures trail == old(trail) + PassSteps(old(Now()), pass.stopped, jobs)
      ensures Reports(pass, jobs, PassOutcomes(old(Now()), pass.stopped, jobs))
    {
      var departed := Departed(jobs);
      DepartLoop(departed);
      ghost var mid, between := Now(), trail;
      pass := ConvergeLoop(departed, jobs);
      Joined(old(trail), Passed(Depart, old(Now()), departed), between, Passed(Turn, mid, jobs), trail);
    }

    method ConvergeLoop(departed: seq<string>, jobs: seq<Job>) returns (pass: Pass)
      modifies this
      ensures pass.stopped == departed
      ensures Now() == Final(Turn, old(Now()), jobs)
      ensures trail == old(trail) + Passed(Turn, old(Now()), jobs)
      ensures Reports(pass, jobs, Reported(Turn, TurnOutcome, old(Now()), jobs))
    {
      pass := Pass([], [], [], departed, []);
      for i := 0 to |jobs|
        invariant pass.stopped == departed
        invariant WorkedThrough(old(Now()), old(trail), jobs[..i], Now(), trail, pass)
      {
        ghost var mid, before := Now(), trail;
        var o := ConvergeOne(jobs[i].want, jobs[i].world);
        WorkOneMore(old(Now()), old(trail), jobs, i, mid, before, pass, trail);
        pass := Noted(pass, jobs[i].want.id, o);
      }
      assert jobs[..|jobs|] == jobs;
    }

    method DepartLoop(departed: seq<string>)
      requires forall id :: id in departed ==> id in running
      requires forall i, j :: 0 <= i < j < |departed| ==> departed[i] != departed[j]
      modifies this
      ensures trail == old(trail) + Passed(Depart, old(Now()), departed)
      ensures Now() == Final(Depart, old(Now()), departed)
    {
      ghost var s := Now();
      for i := 0 to |departed|
        invariant trail == old(trail) + Passed(Depart, s, departed[..i])
        invariant Now() == Final(Depart, s, departed[..i])
        invariant forall j :: i <= j < |departed| ==> departed[j] in running
      {
        TakeOneMore(Depart, (s, d) => 0, s, departed, i);
        Stop(departed[i]);
        RemovePlugin(departed[i]);
      }
      assert departed[..|departed|] == departed;
    }

    method RemovePlugin(id: string)
      modifies this
      ensures running == old(running) && disk == WithoutPlugin(old(disk), id)
      ensures trail == old(trail) + [Now()]
    {
      if PlainName(id) { disk := map k | k in disk && k.0 != id :: disk[k]; }
      trail := trail + [Now()];
    }
  }
}
