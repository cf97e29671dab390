/** The system coordinator: loads the configuration and fills in its defaults, keeps
    the registry of worker processes, and runs the health-check ticks, the restarts and
    the shutdown.

    A worker process is identified by the number of the start that created it (its
    "run"); its operating-system pid is `pidOf(run)`. Liveness, memory and CPU samples,
    the clock and the outcome of every non-blocking `put` are inputs. What the
    coordinator does to processes is recorded as a sequence of actions. */
module Coordinator {
  import opened Common

  // ---------------------------------------------------------------------------
  // Configuration
  // ---------------------------------------------------------------------------

  /** A YAML value as `yaml.safe_load` yields it; lists, `null` and the rest are `Other`. */
  datatype Value = Bool(b: bool) | Int(i: int) | Real(r: real) | Str(s: string)
                 | Map(m: map<string, Value>) | Other

  /** `dict.setdefault`: a present key keeps its value, an absent one gets `v`. */
  function SetDefault(m: map<string, Value>, k: string, v: Value): (r: map<string, Value>)
    ensures r.Keys == m.Keys + {k}
    ensures Defaulted(m, r, k, v)
    ensures forall j :: j in m && j != k ==> r[j] == m[j]
  {
    if k in m then m else m[k := v]
  }

  /** `k` holds its old value in `after` when `before` had one, and `v` otherwise. */
  ghost predicate Defaulted(before: map<string, Value>, after: map<string, Value>, k: string, v: Value)
  {
    k in after && after[k] == (if k in before then before[k] else v)
  }

  const DefaultKeys: set<string> := {"use_tmux", "max_memory_mb", "process_restart_delay", "health_check_interval"}

  /** The four `architecture` defaults, set in this order. */
  function ArchitectureDefaults(arch: map<string, Value>): map<string, Value>
  {
    var a1 := SetDefault(arch, "use_tmux", Bool(true));
    var a2 := SetDefault(a1, "max_memory_mb", Int(500));
    var a3 := SetDefault(a2, "process_restart_delay", Int(5));
    SetDefault(a3, "health_check_interval", Int(30))
  }

  /** `load_config` on the parsed document: `None` when the document, or an
      `architecture` entry it has, is not a mapping (`setdefault` then raises). */
  function LoadConfig(doc: Value): (r: Option<map<string, Value>>)
    ensures r.Some? <==> doc.Map? && ("architecture" in doc.m ==> doc.m["architecture"].Map?)
  {
    if !doc.Map? then None
    else
      var arch := if "architecture" in doc.m then doc.m["architecture"] else Map(map[]);
      if !arch.Map? then None
      else Some(doc.m["architecture" := Map(ArchitectureDefaults(arch.m))])
  }

  /** The four defaults are set only where absent: each of the four keys keeps a value
      it had and otherwise gets its default, every other entry is unchanged, and no
      other key is added. */
  lemma ArchitectureDefaultsOnlyWhereAbsent(arch: map<string, Value>)
    ensures var a := ArchitectureDefaults(arch);
      && a.Keys == arch.Keys + DefaultKeys
      && (forall k :: k in arch && k !in DefaultKeys ==> a[k] == arch[k])
      && Defaulted(arch, a, "use_tmux", Bool(true))
      && Defaulted(arch, a, "max_memory_mb", Int(500))
      && Defaulted(arch, a, "process_restart_delay", Int(5))
      && Defaulted(arch, a, "health_check_interval", Int(30))
  {
    var a1 := SetDefault(arch, "use_tmux", Bool(true));
    var a2 := SetDefault(a1, "max_memory_mb", Int(500));
    var a3 := SetDefault(a2, "process_restart_delay", Int(5));
    var a4 := SetDefault(a3, "health_check_interval", Int(30));
    assert a4["use_tmux"] == a1["use_tmux"];
    assert a4["max_memory_mb"] == a2["max_memory_mb"];
  }

  /** `load_config` adds the `architecture` entry if absent and fills in its defaults;
      every other entry of the document is unchanged. */
  lemma LoadConfigDefaults(doc: Value)
    requires LoadConfig(doc).Some?
    ensures var c := LoadConfig(doc).value;
      var arch := if "architecture" in doc.m then doc.m["architecture"].m else map[];
      && c.Keys == doc.m.Keys + {"architecture"}
      && (forall k :: k in doc.m && k != "architecture" ==> c[k] == doc.m[k])
      && c["architecture"] == Map(ArchitectureDefaults(arch))
  {
  }

  /** Loading an already loaded configuration changes nothing. */
  lemma LoadConfigIdempotent(doc: Value)
    requires LoadConfig(doc).Some?
    ensures LoadConfig(Map(LoadConfig(doc).value)) == LoadConfig(doc)
  {
    var arch := if "architecture" in doc.m then doc.m["architecture"].m else map[];
    ArchitectureDefaultsHasKeys(arch);
    LoadConfigOfLoaded(LoadConfig(doc).value);
  }

  /** After the defaults are filled in, all four keys are present. */
  lemma ArchitectureDefaultsHasKeys(arch: map<string, Value>)
    ensures var a := ArchitectureDefaults(arch);
      && "use_tmux" in a && "max_memory_mb" in a
      && "process_restart_delay" in a && "health_check_interval" in a
  {
    var a1 := SetDefault(arch, "use_tmux", Bool(true));
    var a2 := SetDefault(a1, "max_memory_mb", Int(500));
    var a3 := SetDefault(a2, "process_restart_delay", Int(5));
    assert "use_tmux" in a1 && "use_tmux" in a2 && "use_tmux" in a3;
    assert "max_memory_mb" in a2 && "max_memory_mb" in a3;
  }

  /** A configuration whose `architecture` mapping already has the four keys loads as
      itself. */
  lemma LoadConfigOfLoaded(c: map<string, Value>)
    requires "architecture" in c && c["architecture"].Map?
    requires var a := c["architecture"].m;
      && "use_tmux" in a && "max_memory_mb" in a
      && "process_restart_delay" in a && "health_check_interval" in a
    ensures LoadConfig(Map(c)) == Some(c)
  {
    var a := c["architecture"].m;
    assert ArchitectureDefaults(a) == a;
    assert c["architecture" := Map(a)] == c;
  }

  // ---------------------------------------------------------------------------
  // Workers and the registry
  // ---------------------------------------------------------------------------

  /** The three kinds of worker the `start_*` methods launch. */
  datatype Role = TranscriptMonitorWorker | NoteGeneratorWorker | UiManagerWorker

  /** The registry key each `start_*` method writes. */
  function RoleKey(r: Role): string
  {
    match r
    case TranscriptMonitorWorker => "transcript_monitor"
    case NoteGeneratorWorker => "note_generator"
    case UiManagerWorker => "ui_manager"
  }

  /** The `start_*` method `restart_process` dispatches to for a name, if any. */
  function RoleOf(name: string): (r: Option<Role>)
    ensures r.Some? ==> RoleKey(r.value) == name
    ensures r.None? ==> forall ro: Role :: RoleKey(ro) != name
  {
    if name == "transcript_monitor" then Some(TranscriptMonitorWorker)
    else if name == "note_generator" then Some(NoteGeneratorWorker)
    else if name == "ui_manager" then Some(UiManagerWorker)
    else None
  }

  lemma RoleRoundTrip(r: Role)
    ensures RoleOf(RoleKey(r)) == Some(r)
  {
  }

  /** What the coordinator does to processes: start the worker registered under
      `name` as run `run`, send a run SIGTERM, or kill it. */
  datatype Action = Spawn(name: string, run: nat) | Terminate(run: nat) | Kill(run: nat)

  /** The `processes` dict: its keys in insertion order, the run each key refers to,
      the number of starts so far, and every action taken. */
  datatype Registry = Registry(names: seq<string>, handles: map<string, nat>, started: nat,
                               actions: seq<Action>)

  predicate Distinct(ns: seq<string>)
  {
    forall i, j :: 0 <= i < j < |ns| ==> ns[i] != ns[j]
  }

  /** The registry's keys are distinct, are exactly the names with a handle, are all
      role keys, and refer to earlier runs. */
  ghost predicate KeysOk(names: seq<string>, handles: map<string, nat>, started: nat)
  {
    && Distinct(names)
    && (forall n :: n in handles <==> n in names)
    && (forall n :: n in names ==> RoleOf(n).Some?)
    && (forall n :: n in handles ==> handles[n] < started)
  }

  ghost predicate RegistryOk(reg: Registry)
  {
    KeysOk(reg.names, reg.handles, reg.started)
  }

  /** A `start_*` method: a new run of the role is started and stored under its key;
      a new key goes to the end, an existing one keeps its place. */
  function Start(reg: Registry, role: Role): (r: Registry)
  {
    var k := RoleKey(role);
    Registry(if k in reg.names then reg.names else reg.names + [k],
             reg.handles[k := reg.started], reg.started + 1,
             reg.actions + [Spawn(k, reg.started)])
  }

  lemma StartOk(reg: Registry, role: Role)
    requires RegistryOk(reg)
    ensures var r := Start(reg, role);
      && RegistryOk(r)
      && r.handles[RoleKey(role)] == reg.started
      && (forall n :: n in reg.handles && n != RoleKey(role) ==> r.handles[n] == reg.handles[n])
      && (RoleKey(role) in reg.names ==> r.names == reg.names)
  {
    var k := RoleKey(role);
    var r := Start(reg, role);
    if k !in reg.names {
      forall i, j | 0 <= i < j < |r.names|
        ensures r.names[i] != r.names[j]
      {
        if j == |reg.names| {
          assert r.names[i] == reg.names[i];
        }
      }
    }
  }

  /** What `restart_process` sends the old handle: SIGTERM when it is registered and
      alive, then a kill when it is still alive after the join. */
  function StopActions(reg: Registry, name: string, wasAlive: bool, survivesJoin: bool): (acts: seq<Action>)
    ensures |acts| <= 2
    ensures acts != [] <==> name in reg.handles && wasAlive
  {
    if name in reg.handles && wasAlive then
      [Terminate(reg.handles[name])] + (if survivesJoin then [Kill(reg.handles[name])] else [])
    else []
  }

  /** `restart_process`: the old handle is stopped if alive, then the worker of that
      name, if it is one of the three, is started again. */
  function Restart(reg: Registry, name: string, wasAlive: bool, survivesJoin: bool): Registry
  {
    var reg1 := reg.(actions := reg.actions + StopActions(reg, name, wasAlive, survivesJoin));
    match RoleOf(name)
    case Some(role) => Start(reg1, role)
    case None => reg1
  }

  /** A restart of a registered worker keeps the key set and the key order, replaces
      only that worker's entry with a new run, and records the stop actions followed by
      the start. */
  lemma RestartRegistered(reg: Registry, name: string, wasAlive: bool, survivesJoin: bool)
    requires RegistryOk(reg) && name in reg.names
    ensures var r := Restart(reg, name, wasAlive, survivesJoin);
      && RegistryOk(r)
      && r.names == reg.names
      && r.handles == reg.handles[name := reg.started]
      && r.started == reg.started + 1
      && r.actions == reg.actions + StopActions(reg, name, wasAlive, survivesJoin)
                      + [Spawn(name, reg.started)]
  {
    var reg1 := reg.(actions := reg.actions + StopActions(reg, name, wasAlive, survivesJoin));
    StartOk(reg1, RoleOf(name).value);
  }

  /** A name that is none of the three workers starts nothing and changes nothing. */
  lemma RestartUnknown(reg: Registry, name: string, wasAlive: bool, survivesJoin: bool)
    requires RegistryOk(reg) && RoleOf(name).None?
    ensures Restart(reg, name, wasAlive, survivesJoin) == reg
  {
    assert name !in reg.handles;
    assert reg.actions + [] == reg.actions;
  }

  lemma RestartOk(reg: Registry, name: string, wasAlive: bool, survivesJoin: bool)
    requires RegistryOk(reg)
    ensures RegistryOk(Restart(reg, name, wasAlive, survivesJoin))
  {
    var reg1 := reg.(actions := reg.actions + StopActions(reg, name, wasAlive, survivesJoin));
    if RoleOf(name).Some? {
      StartOk(reg1, RoleOf(name).value);
    }
  }

  // ---------------------------------------------------------------------------
  // One health-check tick
  // ---------------------------------------------------------------------------

  /** The samples of one tick: the coordinator's own memory, each child's memory
      (`None` when it could not be read), the CPU percentage and the time stamp. */
  datatype Sample = Sample(ownMb: real, childrenMb: seq<Option<real>>, cpuPercent: real, timestamp: string)

  /** The memory of the children that could be read, added in order. */
  function ChildrenMemory(cs: seq<Option<real>>): real
  {
    if cs == [] then 0.0
    else ChildrenMemory(cs[..|cs| - 1]) + (match cs[|cs| - 1] case Some(m) => m case None => 0.0)
  }

  /** The readable samples, in order. */
  function Readable(cs: seq<Option<real>>): (r: seq<real>)
    ensures |r| <= |cs|
  {
    if cs == [] then []
    else (match cs[0] case Some(m) => [m] case None => []) + Readable(cs[1..])
  }

  function Sum(xs: seq<real>): real
  {
    if xs == [] then 0.0 else xs[0] + Sum(xs[1..])
  }

  lemma {:induction false} SumAppend(xs: seq<real>, ys: seq<real>)
    ensures Sum(xs + ys) == Sum(xs) + Sum(ys)
  {
    if xs != [] {
      assert (xs + ys)[1..] == xs[1..] + ys;
      SumAppend(xs[1..], ys);
    } else {
      assert xs + ys == ys;
    }
  }

  lemma {:induction false} ReadableAppend(cs: seq<Option<real>>, c: Option<real>)
    ensures Readable(cs + [c]) == Readable(cs) + (match c case Some(m) => [m] case None => [])
  {
    if cs != [] {
      assert (cs + [c])[1..] == cs[1..] + [c];
      ReadableAppend(cs[1..], c);
    } else {
      assert Readable([c][1..]) == [];
    }
  }

  /** The total memory of a tick: the coordinator's own plus that of every child that
      could be read; unreadable children are skipped. */
  function TotalMemory(own: real, cs: seq<Option<real>>): real
  {
    own + ChildrenMemory(cs)
  }

  lemma {:induction false} TotalMemorySkipsUnreadable(own: real, cs: seq<Option<real>>)
    ensures TotalMemory(own, cs) == own + Sum(Readable(cs))
    decreases |cs|
  {
    if cs != [] {
      var init := cs[..|cs| - 1];
      var last := cs[|cs| - 1];
      assert cs == init + [last];
      TotalMemorySkipsUnreadable(own, init);
      ReadableAppend(init, last);
      SumAppend(Readable(init), match last case Some(m) => [m] case None => []);
    }
  }

  /** With no child sample negative, the total is at least the coordinator's own memory. */
  lemma TotalMemoryAtLeastOwn(own: real, cs: seq<Option<real>>)
    requires forall i :: 0 <= i < |cs| && cs[i].Some? ==> cs[i].value >= 0.0
    ensures TotalMemory(own, cs) >= own
  {
    ChildrenNonNegative(cs);
  }

  lemma {:induction false} ChildrenNonNegative(cs: seq<Option<real>>)
    requires forall i :: 0 <= i < |cs| && cs[i].Some? ==> cs[i].value >= 0.0
    ensures ChildrenMemory(cs) >= 0.0
    decreases |cs|
  {
    if cs != [] {
      ChildrenNonNegative(cs[..|cs| - 1]);
    }
  }

  /** The status record of a tick: the time stamp, CPU percentage, total memory, the
      registry size, and for each registered worker whether it is alive and, only if
      it is, its pid. */
  function StatusFor(s: Sample, total: real, reg: Registry, alive: string -> bool, pidOf: nat -> nat): (st: Status)
    requires forall n :: n in reg.names ==> n in reg.handles
  {
    Status(s.timestamp, s.cpuPercent, total, |reg.names|,
           map n | n in reg.names :: ProcStatus(alive(n), if alive(n) then Some(pidOf(reg.handles[n])) else None))
  }

  lemma {:induction false} DistinctCard(ns: seq<string>)
    requires Distinct(ns)
    ensures |set n | n in ns| == |ns|
  {
    if ns != [] {
      var rest := ns[1..];
      DistinctTail(ns);
      DistinctCard(rest);
      assert (set n | n in ns) == {ns[0]} + (set n | n in rest);
    }
  }

  /** The status record reports the number of registered workers, lists exactly the
      registered names, and gives a pid exactly for the live ones. */
  lemma StatusReportsRegistry(s: Sample, total: real, reg: Registry, alive: string -> bool, pidOf: nat -> nat)
    requires RegistryOk(reg)
    ensures var st := StatusFor(s, total, reg, alive, pidOf);
      && st.memoryMb == total
      && st.numProcesses == |reg.handles|
      && st.processes.Keys == reg.handles.Keys
      && (forall n :: n in st.processes ==>
            st.processes[n].alive == alive(n) && (st.processes[n].pid.Some? <==> alive(n)) &&
            (alive(n) ==> st.processes[n].pid.value == pidOf(reg.handles[n])))
  {
    DistinctCard(reg.names);
    assert reg.handles.Keys == set n | n in reg.names;
  }

  const CleanupCommand: Command := Command(Some("cleanup_memory"), None)

  /** What `trigger_memory_cleanup` leaves on the UI command queue in a tick: one
      `cleanup_memory` command when the total is strictly over the limit and the `put`
      succeeds, otherwise nothing. */
  function CleanupCommands(total: real, maxMemoryMb: real, putOk: bool): (cs: seq<Command>)
    ensures |cs| <= 1
    ensures |cs| == 1 <==> total > maxMemoryMb && putOk
    ensures forall i :: 0 <= i < |cs| ==> cs[i] == CleanupCommand
  {
    if total > maxMemoryMb && putOk then [CleanupCommand] else []
  }

  /** The names, in registry order, that a tick finds dead. */
  function Dead(ns: seq<string>, alive: string -> bool): (d: seq<string>)
    ensures |d| <= |ns|
    ensures forall n :: n in d <==> n in ns && !alive(n)
  {
    if ns == [] then []
    else Dead(ns[..|ns| - 1], alive) + (if alive(ns[|ns| - 1]) then [] else [ns[|ns| - 1]])
  }

  /** The start actions of restarting the names `d` in order, from run `first` on. */
  function Spawns(d: seq<string>, first: nat): seq<Action>
  {
    if d == [] then []
    else Spawns(d[..|d| - 1], first) + [Spawn(d[|d| - 1], first + |d| - 1)]
  }

  /** The restart loop of a tick over the names as they stood when it began: every
      name found dead is restarted, its old handle already dead. */
  function RestartDead(reg: Registry, ns: seq<string>, alive: string -> bool): Registry
  {
    if ns == [] then reg
    else
      var r := RestartDead(reg, ns[..|ns| - 1], alive);
      if alive(ns[|ns| - 1]) then r else Restart(r, ns[|ns| - 1], false, false)
  }

  /** The handles after giving the names `d`, in order, runs `first`, `first + 1`, ... */
  function Renumber(handles: map<string, nat>, d: seq<string>, first: nat): map<string, nat>
  {
    if d == [] then handles
    else Renumber(handles, d[..|d| - 1], first)[d[|d| - 1] := first + |d| - 1]
  }

  /** The registry after restarting the dead names `d`, in order, as the next runs. */
  function Renumbered(reg: Registry, d: seq<string>): Registry
  {
    Registry(reg.names, Renumber(reg.handles, d, reg.started), reg.started + |d|,
             reg.actions + Spawns(d, reg.started))
  }

  /** Restarting a registered worker whose handle is dead. */
  lemma RestartDeadWorker(reg: Registry, name: string)
    requires name in reg.names && RoleOf(name).Some?
    ensures Restart(reg, name, false, false) ==
      Registry(reg.names, reg.handles[name := reg.started], reg.started + 1,
               reg.actions + [Spawn(name, reg.started)])
  {
    assert reg.actions + StopActions(reg, name, false, false) == reg.actions;
  }

  /** One more dead worker restarted is one more name renumbered. */
  lemma RenumberedSnoc(reg: Registry, d: seq<string>, n: string)
    requires n in reg.names && RoleOf(n).Some?
    ensures Restart(Renumbered(reg, d), n, false, false) == Renumbered(reg, d + [n])
  {
    var r := Renumbered(reg, d);
    RestartDeadWorker(r, n);
    var d' := d + [n];
    assert d'[..|d'| - 1] == d;
    assert reg.actions + Spawns(d, reg.started) + [Spawn(n, reg.started + |d|)]
        == reg.actions + (Spawns(d, reg.started) + [Spawn(n, reg.started + |d|)]);
  }

  /** The restart loop over registered names keeps the key order, restarts exactly the
      dead workers in order as the next runs, and records one start for each. */
  lemma {:induction false} RestartDeadIsRenumber(reg: Registry, ns: seq<string>, alive: string -> bool)
    requires forall n :: n in ns ==> n in reg.names && RoleOf(n).Some?
    ensures RestartDead(reg, ns, alive) == Renumbered(reg, Dead(ns, alive))
    decreases |ns|
  {
    if ns == [] {
      assert reg.actions + Spawns([], reg.started) == reg.actions;
    } else {
      var init := ns[..|ns| - 1];
      var last := ns[|ns| - 1];
      assert forall m :: m in init ==> m in ns;
      RestartDeadIsRenumber(reg, init, alive);
      if alive(last) {
        assert Dead(init, alive) + [] == Dead(init, alive);
        assert RestartDead(reg, ns, alive) == RestartDead(reg, init, alive);
      } else {
        assert RestartDead(reg, ns, alive) == Restart(RestartDead(reg, init, alive), last, false, false);
        assert Dead(ns, alive) == Dead(init, alive) + [last];
        RenumberedSnoc(reg, Dead(init, alive), last);
      }
    }
  }

  /** The restart loop keeps the registry well formed. */
  lemma {:induction false} RestartDeadOk(reg: Registry, ns: seq<string>, alive: string -> bool)
    requires RegistryOk(reg)
    ensures RegistryOk(RestartDead(reg, ns, alive))
    decreases |ns|
  {
    if ns != [] {
      var init := ns[..|ns| - 1];
      RestartDeadOk(reg, init, alive);
      RestartOk(RestartDead(reg, init, alive), ns[|ns| - 1], false, false);
    }
  }

  /** Renumbering keeps the key set and every entry not renumbered. */
  lemma {:induction false} RenumberKeeps(handles: map<string, nat>, d: seq<string>, first: nat)
    requires forall n :: n in d ==> n in handles
    ensures Renumber(handles, d, first).Keys == handles.Keys
    ensures forall n :: n in handles && n !in d ==> Renumber(handles, d, first)[n] == handles[n]
    decreases |d|
  {
    if d != [] {
      var init := d[..|d| - 1];
      assert forall m :: m in init ==> m in d;
      RenumberKeeps(handles, init, first);
    }
  }

  lemma DistinctInit(d: seq<string>)
    requires Distinct(d) && d != []
    ensures Distinct(d[..|d| - 1]) && d[|d| - 1] !in d[..|d| - 1]
  {
  }

  lemma DistinctTail(d: seq<string>)
    requires Distinct(d) && d != []
    ensures Distinct(d[1..]) && d[0] !in d[1..]
  {
    var rest := d[1..];
    forall i, j | 0 <= i < j < |rest|
      ensures rest[i] != rest[j]
    {
      assert rest[i] == d[i + 1] && rest[j] == d[j + 1];
    }
    forall i | 0 <= i < |rest|
      ensures rest[i] != d[0]
    {
      assert rest[i] == d[i + 1];
    }
  }

  /** With distinct names, the i-th renumbered name gets run `first + i`. */
  lemma {:induction false} RenumberNumbers(handles: map<string, nat>, d: seq<string>, first: nat)
    requires Distinct(d)
    requires forall n :: n in d ==> n in handles
    ensures Renumber(handles, d, first).Keys == handles.Keys
    ensures forall i :: 0 <= i < |d| ==> Renumber(handles, d, first)[d[i]] == first + i
    decreases |d|
  {
    RenumberKeeps(handles, d, first);
    if d != [] {
      var init := d[..|d| - 1];
      assert forall m :: m in init ==> m in d;
      DistinctInit(d);
      RenumberNumbers(handles, init, first);
      forall i | 0 <= i < |d| - 1
        ensures Renumber(handles, d, first)[d[i]] == first + i
      {
        assert d[i] == init[i];
      }
    }
  }

  lemma {:induction false} DeadDistinct(ns: seq<string>, alive: string -> bool)
    requires Distinct(ns)
    ensures Distinct(Dead(ns, alive))
    decreases |ns|
  {
    if ns != [] {
      var init := ns[..|ns| - 1];
      DistinctInit(ns);
      DeadDistinct(init, alive);
    }
  }

  /** Every health tick's restart loop keeps the registry's key set and order, keeps
      the entry of every live worker, gives the i-th dead worker run `started + i`, and
      records exactly one start per dead worker, in registry order. */
  lemma RestartDeadProperties(reg: Registry, alive: string -> bool)
    requires RegistryOk(reg)
    ensures var r := RestartDead(reg, reg.names, alive);
      var d := Dead(reg.names, alive);
      && RegistryOk(r)
      && r.names == reg.names
      && r.handles.Keys == reg.handles.Keys
      && (forall n :: n in reg.handles && n !in d ==> r.handles[n] == reg.handles[n])
      && (forall i :: 0 <= i < |d| ==> r.handles[d[i]] == reg.started + i)
      && r.started == reg.started + |d|
      && r.actions == reg.actions + Spawns(d, reg.started)
  {
    var d := Dead(reg.names, alive);
    RestartDeadIsRenumber(reg, reg.names, alive);
    RestartDeadOk(reg, reg.names, alive);
    RenumberKeeps(reg.handles, d, reg.started);
    DeadDistinct(reg.names, alive);
    RenumberNumbers(reg.handles, d, reg.started);
  }

  // ---------------------------------------------------------------------------
  // Shutdown
  // ---------------------------------------------------------------------------

  /** The first loop of `shutdown`: SIGTERM to every registered worker, in order. */
  function TerminateAll(ns: seq<string>, handles: map<string, nat>): seq<Action>
    requires forall n :: n in ns ==> n in handles
  {
    if ns == [] then [] else TerminateAll(ns[..|ns| - 1], handles) + [Terminate(handles[ns[|ns| - 1]])]
  }

  /** The i-th action of the first loop terminates the i-th registered worker. */
  lemma {:induction false} TerminateAllEach(ns: seq<string>, handles: map<string, nat>)
    requires forall n :: n in ns ==> n in handles
    ensures |TerminateAll(ns, handles)| == |ns|
    ensures forall i :: 0 <= i < |ns| ==> TerminateAll(ns, handles)[i] == Terminate(handles[ns[i]])
    decreases |ns|
  {
    if ns != [] {
      var init := ns[..|ns| - 1];
      assert forall n :: n in init ==> n in ns;
      TerminateAllEach(init, handles);
      forall i | 0 <= i < |ns|
        ensures TerminateAll(ns, handles)[i] == Terminate(handles[ns[i]])
      {
        if i < |init| {
          assert init[i] == ns[i];
        }
      }
    }
  }

  /** The second loop of `shutdown`: a kill for every worker still alive after its join. */
  function KillSurvivors(ns: seq<string>, handles: map<string, nat>, survives: string -> bool): seq<Action>
    requires forall n :: n in ns ==> n in handles
  {
    if ns == [] then []
    else KillSurvivors(ns[..|ns| - 1], handles, survives)
         + (if survives(ns[|ns| - 1]) then [Kill(handles[ns[|ns| - 1]])] else [])
  }

  /** The second loop kills nothing but surviving registered workers, at most one kill
      per worker. */
  lemma {:induction false} KillsOnlySurvivors(ns: seq<string>, handles: map<string, nat>, survives: string -> bool)
    requires forall n :: n in ns ==> n in handles
    ensures |KillSurvivors(ns, handles, survives)| <= |ns|
    ensures forall a :: a in KillSurvivors(ns, handles, survives) ==>
      exists n :: n in ns && survives(n) && a == Kill(handles[n])
    decreases |ns|
  {
    if ns != [] {
      var init := ns[..|ns| - 1];
      var last := ns[|ns| - 1];
      assert forall n :: n in init ==> n in ns;
      KillsOnlySurvivors(init, handles, survives);
      forall a | a in KillSurvivors(ns, handles, survives)
        ensures exists n :: n in ns && survives(n) && a == Kill(handles[n])
      {
        if a !in KillSurvivors(init, handles, survives) {
          assert survives(last) && a == Kill(handles[last]);
        }
      }
    }
  }

  /** Every surviving registered worker is killed. */
  lemma {:induction false} SurvivorsAreKilled(ns: seq<string>, handles: map<string, nat>, survives: string -> bool)
    requires forall n :: n in ns ==> n in handles
    ensures forall n :: n in ns && survives(n) ==> Kill(handles[n]) in KillSurvivors(ns, handles, survives)
    decreases |ns|
  {
    if ns != [] {
      var init := ns[..|ns| - 1];
      forall n | n in init
        ensures n in ns
      {
        var i :| 0 <= i < |init| && init[i] == n;
        assert ns[i] == n;
      }
      SurvivorsAreKilled(init, handles, survives);
      forall n | n in ns && survives(n)
        ensures Kill(handles[n]) in KillSurvivors(ns, handles, survives)
      {
        var i :| 0 <= i < |ns| && ns[i] == n;
        if i < |ns| - 1 {
          assert init[i] == n;
        }
      }
    }
  }

  // ---------------------------------------------------------------------------
  // The coordinator
  // ---------------------------------------------------------------------------

  class Supervisor {
    /** `architecture.max_memory_mb` of the loaded configuration. */
    const maxMemoryMb: real
    /** The pid the operating system gives each run. */
    const pidOf: nat -> nat
    var names: seq<string>
    var handles: map<string, nat>
    var started: nat
    var actions: seq<Action>
    /** Every command put on the UI command queue. */
    var uiCommands: seq<Command>
    /** Every record put on the status queue. */
    var statusQueue: seq<Status>
    /** The shared state's `memory_usage`. */
    var memoryUsage: real
    var shutdownSet: bool

    function Reg(): Registry
      reads this
    {
      Registry(names, handles, started, actions)
    }

    ghost predicate Valid()
      reads this
    {
      KeysOk(names, handles, started)
    }

    /** The registry starts empty, the shared `memory_usage` at 0 and the shutdown
        event clear. */
    constructor (maxMemoryMb: real, pidOf: nat -> nat)
      ensures Valid()
      ensures this.maxMemoryMb == maxMemoryMb && this.pidOf == pidOf
      ensures Reg() == Registry([], map[], 0, [])
      ensures uiCommands == [] && statusQueue == [] && memoryUsage == 0.0 && !shutdownSet
    {
      this.maxMemoryMb := maxMemoryMb;
      this.pidOf := pidOf;
      names := [];
      handles := map[];
      started := 0;
      actions := [];
      uiCommands := [];
      statusQueue := [];
      memoryUsage := 0.0;
      shutdownSet := false;
    }

    /** A `start_*` method. */
    method StartWorker(role: Role)
      requires Valid()
      modifies this`names, this`handles, this`started, this`actions
      ensures Valid()
      ensures Reg() == Start(old(Reg()), role)
    {
      StartOk(Reg(), role);
      var k := RoleKey(role);
      if k !in names {
        names := names + [k];
      }
      handles := handles[k := started];
      actions := actions + [Spawn(k, started)];
      started := started + 1;
    }

    /** The start-up sequence of `run`: the transcript monitor, the note generator and
        the UI manager, in that order. */
    method StartAll()
      requires Valid()
      modifies this`names, this`handles, this`started, this`actions
      ensures Valid()
      ensures Reg() == Start(Start(Start(old(Reg()), TranscriptMonitorWorker), NoteGeneratorWorker), UiManagerWorker)
    {
      StartWorker(TranscriptMonitorWorker);
      StartWorker(NoteGeneratorWorker);
      StartWorker(UiManagerWorker);
    }

    /** `restart_process`, given whether the old handle is alive before the restart and
        whether it is still alive after the join. */
    method RestartProcess(name: string, wasAlive: bool, survivesJoin: bool)
      requires Valid()
      modifies this`names, this`handles, this`started, this`actions
      ensures Valid()
      ensures Reg() == Restart(old(Reg()), name, wasAlive, survivesJoin)
    {
      RestartOk(Reg(), name, wasAlive, survivesJoin);
      StopOld(name, wasAlive, survivesJoin);
      var role := RoleOf(name);
      if role.Some? {
        StartWorker(role.value);
      }
    }

    /** The first half of `restart_process`: the old run, when registered and alive,
        gets SIGTERM and, if it survives the join, SIGKILL. */
    method StopOld(name: string, wasAlive: bool, survivesJoin: bool)
      modifies this`actions
      ensures actions == old(actions) + StopActions(Reg(), name, wasAlive, survivesJoin)
    {
      if name in handles && wasAlive {
        var run := handles[name];
        actions := actions + [Terminate(run)];
        if survivesJoin {
          actions := actions + [Kill(run)];
        }
      }
    }

    /** `trigger_memory_cleanup`: a failed `put` is swallowed. */
    method TriggerMemoryCleanup(putOk: bool)
      modifies this
      ensures uiCommands == old(uiCommands) + (if putOk then [CleanupCommand] else [])
      ensures Reg() == old(Reg()) && statusQueue == old(statusQueue)
      ensures memoryUsage == old(memoryUsage) && shutdownSet == old(shutdownSet)
    {
      if putOk {
        uiCommands := uiCommands + [CleanupCommand];
      }
    }

    /** The children's memory, added in order as the tick reads them. */
    method SampleTotal(s: Sample) returns (total: real)
      ensures total == TotalMemory(s.ownMb, s.childrenMb)
    {
      total := s.ownMb;
      var i := 0;
      while i < |s.childrenMb|
        invariant 0 <= i <= |s.childrenMb|
        invariant total == s.ownMb + ChildrenMemory(s.childrenMb[..i])
      {
        assert s.childrenMb[..i + 1][..i] == s.childrenMb[..i];
        if s.childrenMb[i].Some? {
          total := total + s.childrenMb[i].value;
        }
        i := i + 1;
      }
      assert s.childrenMb[..i] == s.childrenMb;
    }

    /** The restart loop of a tick over a snapshot of the registry's names. */
    method RestartDeadWorkers(alive: string -> bool)
      requires Valid()
      modifies this`names, this`handles, this`started, this`actions
      ensures Valid()
      ensures Reg() == RestartDead(old(Reg()), old(names), alive)
    {
      var ns := names;
      ghost var reg0 := Reg();
      var i := 0;
      while i < |ns|
        invariant 0 <= i <= |ns|
        invariant Valid()
        invariant Reg() == RestartDead(reg0, ns[..i], alive)
      {
        assert ns[..i + 1][..i] == ns[..i];
        if !alive(ns[i]) {
          RestartProcess(ns[i], false, false);
        }
        i := i + 1;
      }
      assert ns[..i] == ns;
    }

    /** One iteration of the health loop, run only while the shutdown event is clear:
        the own memory goes to the shared state, a status record is put (a failed `put`
        is dropped), a cleanup command is put when the total is over the limit, and
        every worker found dead is restarted. */
    method HealthTick(s: Sample, alive: string -> bool, statusPutOk: bool, commandPutOk: bool)
      returns (ran: bool)
      requires Valid()
      modifies this
      ensures Valid()
      ensures ran == !old(shutdownSet) && shutdownSet == old(shutdownSet)
      ensures !ran ==>
        Reg() == old(Reg()) && uiCommands == old(uiCommands) && statusQueue == old(statusQueue) &&
        memoryUsage == old(memoryUsage)
      ensures ran ==>
        var total := TotalMemory(s.ownMb, s.childrenMb);
        && memoryUsage == s.ownMb
        && statusQueue == old(statusQueue) +
             (if statusPutOk then [StatusFor(s, total, old(Reg()), alive, pidOf)] else [])
        && uiCommands == old(uiCommands) + CleanupCommands(total, maxMemoryMb, commandPutOk)
        && Reg() == RestartDead(old(Reg()), old(names), alive)
    {
      if shutdownSet {
        return false;
      }
      memoryUsage := s.ownMb;
      var total := SampleTotal(s);
      var status := StatusFor(s, total, Reg(), alive, pidOf);
      if statusPutOk {
        statusQueue := statusQueue + [status];
      }
      if total > maxMemoryMb {
        TriggerMemoryCleanup(commandPutOk);
      }
      RestartDeadWorkers(alive);
      return true;
    }

    /** `shutdown`: the event is set, every registered worker gets SIGTERM, and every
        one still alive after its join (`survives`) is killed. */
    method Shutdown(survives: string -> bool)
      requires Valid()
      modifies this
      ensures Valid() && shutdownSet
      ensures names == old(names) && handles == old(handles) && started == old(started)
      ensures actions == old(actions) + TerminateAll(old(names), old(handles))
                         + KillSurvivors(old(names), old(handles), survives)
      ensures uiCommands == old(uiCommands) && statusQueue == old(statusQueue)
      ensures memoryUsage == old(memoryUsage)
    {
      shutdownSet := true;
      TerminateWorkers();
      KillWorkers(survives);
    }

    method TerminateWorkers()
      requires forall n :: n in names ==> n in handles
      modifies this`actions
      ensures actions == old(actions) + TerminateAll(names, handles)
    {
      var i := 0;
      while i < |names|
        invariant 0 <= i <= |names|
        invariant actions == old(actions) + TerminateAll(names[..i], handles)
      {
        assert names[..i + 1][..i] == names[..i];
        actions := actions + [Terminate(handles[names[i]])];
        i := i + 1;
      }
      assert names[..i] == names;
    }

    method KillWorkers(survives: string -> bool)
      requires forall n :: n in names ==> n in handles
      modifies this`actions
      ensures actions == old(actions) + KillSurvivors(names, handles, survives)
    {
      var i := 0;
      while i < |names|
        invariant 0 <= i <= |names|
        invariant actions == old(actions) + KillSurvivors(names[..i], handles, survives)
      {
        assert names[..i + 1][..i] == names[..i];
        if survives(names[i]) {
          actions := actions + [Kill(handles[names[i]])];
        }
        i := i + 1;
      }
      assert names[..i] == names;
    }
  }

  /** The start-up sequence registers the three workers in order as runs 0, 1 and 2. */
  lemma StartAllRegisters()
    ensures var r := Start(Start(Start(Registry([], map[], 0, []), TranscriptMonitorWorker),
                                 NoteGeneratorWorker), UiManagerWorker);
      && r.names == ["transcript_monitor", "note_generator", "ui_manager"]
      && r.handles == map["transcript_monitor" := 0, "note_generator" := 1, "ui_manager" := 2]
      && r.actions == [Spawn("transcript_monitor", 0), Spawn("note_generator", 1), Spawn("ui_manager", 2)]
  {
  }
}
