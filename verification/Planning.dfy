/** What one apply would do: the comparison of a rendering with the host, and the steps it
    asks for in the order of the phases. */
module Planning {
  import opened Orders
  import opened Host

  // ----- the rendering ---------------------------------------------------------------

  datatype Artifact = Artifact(path: Path, content: Content)

  datatype UdevLink = UdevLink(path: Path, ifname: string)

  datatype Switch = Switch(key: string, value: string)

  /** Everything the renderers made of one declaration and one reading of the host. */
  datatype Rendering = Rendering(
    artifacts: seq<Artifact>,
    withheld: set<Path>,
    linkFiles: seq<UdevLink>,
    ruleset: Ruleset,
    sets: seq<SetElements>,      // what each set written at runtime should hold, by name
    switches: seq<Switch>,
    sessions: seq<string>,
    dnsmasq: bool,
    records: seq<Record>,
    waiting: seq<string>)

  /** What of the host could be asked. An answer that is given is the truth. */
  datatype Probe = Probe(tables: bool, sets: bool, units: set<string>)

  // ----- the plan --------------------------------------------------------------------

  datatype ChangeKind = Unchanged | Create | Update | Remove

  datatype FileChange = FileChange(path: Path, kind: ChangeKind, content: Content, deferred: bool, hadBefore: bool)

  datatype SwitchChange = SwitchChange(switch_: Switch, changed: bool)

  datatype FirewallChange = FirewallChange(ruleset: Ruleset, elements: seq<SetElements>, apply: bool)

  datatype RecordChange = RecordChange(record: Record, write: bool)

  /** Why a turn is not through with something it found. */
  datatype Failure = Forbidden(step: Step) | HeldBack(step: Step) | Refused(step: Step)

  datatype Plan = Plan(
    files: seq<FileChange>,
    switches: seq<SwitchChange>,
    firewall: FirewallChange,
    records: seq<RecordChange>,
    steps: seq<Step>,
    owed: seq<OwedStep>,
    waiting: seq<string>,
    failing: seq<Failure>)

  predicate WasWritten(c: FileChange) { c.kind == Create || c.kind == Update }

  /** Whether applying the plan would change nothing at all. */
  predicate Empty(plan: Plan) {
    && !plan.firewall.apply
    && plan.steps == []
    && (forall c :: c in plan.files ==> c.kind == Unchanged)
    && forall s :: s in plan.switches ==> !s.changed
  }

  // ----- files -----------------------------------------------------------------------

  const NO_CONTENT := Content([], 0)

  function Compare(a: Artifact, disk: map<Path, Content>): FileChange {
    var deferred := a.path.dir == UnitDir;
    if a.path !in disk then FileChange(a.path, Create, a.content, deferred, false)
    else if disk[a.path] == a.content then FileChange(a.path, Unchanged, a.content, deferred, true)
    else FileChange(a.path, Update, a.content, deferred, true)
  }

  const OWNERSHIP_MARKER := "# Generated by regied. Do not edit: every apply rewrites this file."

  /** The marker is the first line, or the second of a script. */
  predicate HasOwnershipMarker(c: Content) {
    || (|c.lines| > 0 && c.lines[0] == OWNERSHIP_MARKER)
    || (|c.lines| > 1 && HasPrefix(c.lines[0], "#!") && c.lines[1] == OWNERSHIP_MARKER)
  }

  const FILE_PREFIX := "50-regied-"
  const UNIT_PREFIX := "regied-"

  /** Whether a file found in a directory regied writes to is regied's to take away. */
  predicate IsOurs(p: Path, c: Content) {
    match p.dir
    case NetworkdDir => HasPrefix(p.name, FILE_PREFIX)
    case PeersDir => HasOwnershipMarker(c)
    case CredentialsDir => HasOwnershipMarker(c)
    case DnsmasqDir => HasOwnershipMarker(c)
    case _ => HasPrefix(p.name, UNIT_PREFIX) && HasOwnershipMarker(c)
  }

  function Desired(r: Rendering): set<Path> {
    r.withheld + set a | a in r.artifacts :: a.path
  }

  function RemovalOf(p: Path): FileChange {
    FileChange(p, Remove, NO_CONTENT, p.dir == UnitDir, true)
  }

  predicate ToReclaim(p: Path, disk: map<Path, Content>, desired: set<Path>) {
    p in disk && p !in desired && IsOurs(p, disk[p])
  }

  function Compared(artifacts: seq<Artifact>, disk: map<Path, Content>): seq<FileChange> {
    if artifacts == [] then [] else [Compare(artifacts[0], disk)] + Compared(artifacts[1..], disk)
  }

  function Reclaimed(listing: seq<Path>, disk: map<Path, Content>, desired: set<Path>): seq<FileChange> {
    if listing == [] then []
    else (if ToReclaim(listing[0], disk, desired) then [RemovalOf(listing[0])] else [])
         + Reclaimed(listing[1..], disk, desired)
  }

  predicate PathOrder(a: FileChange, b: FileChange) { TextLe(PathText(a.path), PathText(b.path)) }

  function Files(r: Rendering, listing: seq<Path>, disk: map<Path, Content>): seq<FileChange> {
    Sort(Compared(r.artifacts, disk) + Reclaimed(listing, disk, Desired(r)), PathOrder)
  }

  /** The plan's entry for one path, or an unchanged one when it has nothing to say. */
  function ChangeFor(files: seq<FileChange>, p: Path): FileChange {
    if files == [] then FileChange(p, Unchanged, NO_CONTENT, false, false)
    else if files[0].path == p then files[0]
    else ChangeFor(files[1..], p)
  }

  // ----- kernel switches -------------------------------------------------------------

  /** A key this kernel does not have is left out. */
  function SwitchChanges(wants: seq<Switch>, held: map<string, string>): seq<SwitchChange> {
    if wants == [] then []
    else (if wants[0].key in held then [SwitchChange(wants[0], held[wants[0].key] != wants[0].value)] else [])
         + SwitchChanges(wants[1..], held)
  }

  // ----- firewall --------------------------------------------------------------------

  /** The desired sets that differ from what is held; a set that is not there is left out. */
  function SetsToWrite(desired: seq<SetElements>, held: map<string, seq<string>>): seq<SetElements> {
    if desired == [] then []
    else (if desired[0].name in held && held[desired[0].name] != desired[0].elements then [desired[0]] else [])
         + SetsToWrite(desired[1..], held)
  }

  function EmptySets(desired: seq<SetElements>): map<string, seq<string>> {
    map s | s in desired :: s.name := []
  }

  /** The table is put in when it is known to be gone or its text moved; the sets are
      written when they could be read and differ. */
  function Firewall(ruleset: Ruleset, desired: seq<SetElements>, w: World, probe: Probe): FirewallChange {
    var absent := probe.tables && w.table.None?;
    var apply := absent || w.installed != Some(ruleset);
    if apply then FirewallChange(ruleset, SetsToWrite(desired, EmptySets(desired)), true)
    else if !probe.sets || w.table.None? then FirewallChange(ruleset, [], false)
    else FirewallChange(ruleset, SetsToWrite(desired, w.table.value.sets), false)
  }

  // ----- records ---------------------------------------------------------------------

  predicate MustWrite(record: Record, written: map<RecordId, Record>) {
    record.id !in written || written[record.id] != record
  }

  function RecordChanges(records: seq<Record>, written: map<RecordId, Record>): seq<RecordChange> {
    if records == [] then []
    else [RecordChange(records[0], MustWrite(records[0], written))] + RecordChanges(records[1..], written)
  }

  // ----- services --------------------------------------------------------------------

  datatype Service = Service(unit: string, declared: bool, unitFile: FileChange, inputs: seq<FileChange>,
      active: Option<bool>)

  const PPPOE_TEMPLATE := "regied-pppoe@.service"
  const DNSMASQ_UNIT := "regied-dnsmasq.service"

  function PppoeUnit(session: string): string { "regied-pppoe@" + session + ".service" }

  function ServiceCommand(args: seq<string>): Step { Step(PROCESSES, Run(Systemctl(args)), false) }

  predicate SomethingLeft(s: Service) {
    s.unitFile.kind == Remove || exists f :: f in s.inputs && f.kind == Remove
  }

  predicate Fresh(s: Service) { forall f :: f in s.inputs ==> !f.hadBefore }

  predicate Written(s: Service) { WasWritten(s.unitFile) || exists f :: f in s.inputs && WasWritten(f) }

  /** What the commit does to one process. */
  function ServiceSteps(s: Service): seq<Step> {
    if !s.declared then
      if SomethingLeft(s) then [ServiceCommand(["disable", "--now", s.unit])] else []
    else if Fresh(s) then [ServiceCommand(["enable", "--now", s.unit])]
    else if s.active == Some(false) then [ServiceCommand(["start", s.unit])]
    else if s.unitFile.kind == Create then [ServiceCommand(["enable", s.unit]), ServiceCommand(["restart", s.unit])]
    else if Written(s) then [ServiceCommand(["restart", s.unit])]
    else []
  }

  const CONF := ".conf"

  function TrimConf(name: string): string {
    if HasSuffix(name, CONF) then name[..|name| - |CONF|] else name
  }

  function NamesIn(files: seq<FileChange>, dir: Dir): seq<string> {
    if files == [] then []
    else (if files[0].path.dir == dir then [TrimConf(files[0].path.name)] else []) + NamesIn(files[1..], dir)
  }

  function SessionNames(r: Rendering, files: seq<FileChange>): seq<string> {
    Compact(Sort(r.sessions + NamesIn(files, PeersDir) + NamesIn(files, CredentialsDir), TextLe))
  }

  function ActiveOf(unit: string, w: World, probe: Probe): Option<bool> {
    if unit in probe.units then Some(unit in w.active) else None
  }

  function SessionService(name: string, r: Rendering, files: seq<FileChange>, w: World, probe: Probe): Service {
    Service(PppoeUnit(name), name in r.sessions, ChangeFor(files, Path(UnitDir, PPPOE_TEMPLATE)),
      [ChangeFor(files, Path(PeersDir, name + CONF)), ChangeFor(files, Path(CredentialsDir, name + CONF))],
      ActiveOf(PppoeUnit(name), w, probe))
  }

  function DnsmasqService(r: Rendering, files: seq<FileChange>, w: World, probe: Probe): Service {
    Service(DNSMASQ_UNIT, r.dnsmasq, ChangeFor(files, Path(UnitDir, DNSMASQ_UNIT)),
      [ChangeFor(files, Path(DnsmasqDir, "dnsmasq.conf"))], ActiveOf(DNSMASQ_UNIT, w, probe))
  }

  function SessionSteps(names: seq<string>, r: Rendering, files: seq<FileChange>, w: World, probe: Probe): seq<Step> {
    if names == [] then []
    else ServiceSteps(SessionService(names[0], r, files, w, probe)) + SessionSteps(names[1..], r, files, w, probe)
  }

  function ProcessSteps(r: Rendering, files: seq<FileChange>, w: World, probe: Probe): seq<Step> {
    SessionSteps(SessionNames(r, files), r, files, w, probe) + ServiceSteps(DnsmasqService(r, files, w, probe))
  }

  // ----- the steps, phase by phase ---------------------------------------------------

  function FirewallSteps(f: FirewallChange): seq<Step> {
    (if f.apply then [Step(FIREWALL, Run(NftCommand(RulesetInput(f.ruleset))), false)] else [])
    + (if f.elements != [] then [Step(FIREWALL, SeedSets(f.elements), false)] else [])
  }

  function SwitchSteps(switches: seq<SwitchChange>): seq<Step> {
    if switches == [] then []
    else (if switches[0].changed
          then [Step(KERNEL, SetSwitch(switches[0].switch_.key, switches[0].switch_.value), false)] else [])
         + SwitchSteps(switches[1..])
  }

  predicate ChangedFor(files: seq<FileChange>, d: Daemon) {
    exists c :: c in files && c.kind != Unchanged && ReaderOf(c.path) == Some(d)
  }

  function ReloadStep(phase: int, d: Daemon): Step { Step(phase, Run(ReloadOf(d)), true) }

  function TriggerSteps(linkFiles: seq<UdevLink>, files: seq<FileChange>, links: set<string>): seq<Step> {
    if linkFiles == [] then []
    else (if WasWritten(ChangeFor(files, linkFiles[0].path)) && linkFiles[0].ifname in links
          then [Step(NETWORKD, Run(UdevTrigger(linkFiles[0].ifname)), true)] else [])
         + TriggerSteps(linkFiles[1..], files, links)
  }

  function NetworkdSteps(r: Rendering, files: seq<FileChange>, links: set<string>): seq<Step> {
    (if ChangedFor(files, Networkd) then [ReloadStep(NETWORKD, Networkd)] else [])
    + (if ChangedFor(files, Udev) then [ReloadStep(NETWORKD, Udev)] + TriggerSteps(r.linkFiles, files, links) else [])
  }

  predicate UnitWritten(files: seq<FileChange>) {
    exists c :: c in files && WasWritten(c) && c.path.dir == UnitDir
  }

  function UnitReload(files: seq<FileChange>): seq<Step> {
    if UnitWritten(files) then [ReloadStep(PROCESS_CONFIG, Systemd)] else []
  }

  function RemovalSteps(files: seq<FileChange>): seq<Step> {
    if files == [] then []
    else (if files[0].deferred && files[0].kind == Remove
          then [Step(PROCESSES, RemoveFile(files[0].path), false)] else [])
         + RemovalSteps(files[1..])
  }

  /** The deferred removals, and then telling systemd. */
  function DeferredReclaim(files: seq<FileChange>): seq<Step> {
    if RemovalSteps(files) == [] then [] else RemovalSteps(files) + [ReloadStep(PROCESSES, Systemd)]
  }

  function RecordSteps(records: seq<RecordChange>): seq<Step> {
    if records == [] then []
    else (if records[0].write then [Step(DNS, WriteRecord(records[0].record), false)] else [])
         + RecordSteps(records[1..])
  }

  /** The steps up to and including the processes: everything before a unit is taken away. */
  function EarlySteps(r: Rendering, files: seq<FileChange>, switches: seq<SwitchChange>, f: FirewallChange, w: World,
      probe: Probe): seq<Step> {
    FirewallSteps(f) + SwitchSteps(switches) + NetworkdSteps(r, files, w.links) + UnitReload(files)
    + ProcessSteps(r, files, w, probe)
  }

  function StepsOf(r: Rendering, files: seq<FileChange>, switches: seq<SwitchChange>, f: FirewallChange,
      records: seq<RecordChange>, w: World, probe: Probe): seq<Step> {
    EarlySteps(r, files, switches, f, w, probe) + DeferredReclaim(files) + RecordSteps(records)
  }

  // ----- what earlier turns left owed ------------------------------------------------

  function LastArg(args: seq<string>): string { if args == [] then "" else args[|args| - 1] }

  /** Whether a command is one a turn can leave owed, and so may be run from the file. */
  predicate Owable(name: string, args: seq<string>) {
    || (name == "networkctl" && args == ["reload"])
    || (name == "udevadm" && args == ["control", "--reload"])
    || (name == "systemctl" && args == ["daemon-reload"])
    || (&& name == "udevadm" && |args| > 1 && args[0] == "trigger"
        && HasPrefix(LastArg(args), SYS_CLASS_NET)
        && '/' !in LastArg(args)[|SYS_CLASS_NET|..]
        && args == UdevTrigger(LastArg(args)[|SYS_CLASS_NET|..]).args)
  }

  /** A link that is gone has nothing to apply its file to. */
  predicate LinkGone(o: OwedStep, links: set<string>) {
    && o.name == "udevadm" && HasPrefix(LastArg(o.args), SYS_CLASS_NET)
    && LastArg(o.args)[|SYS_CLASS_NET|..] !in links
  }

  function StepFor(o: OwedStep): Step { Step(o.phase, Run(Command(o.name, o.args, NoInput)), true) }

  function Skipped(o: OwedStep, steps: seq<Step>, links: set<string>): bool {
    KeyOf(StepFor(o)) in KeysOf(steps) || !Owable(o.name, o.args) || LinkGone(o, links)
  }

  /** A step is put in ahead of the first one of a later phase. */
  function InsertStep(steps: seq<Step>, step: Step): seq<Step> {
    if steps == [] then [step]
    else if steps[0].phase > step.phase then [step] + steps
    else [steps[0]] + InsertStep(steps[1..], step)
  }

  datatype Owing = Owing(steps: seq<Step>, owed: seq<OwedStep>)

  function OwedOf(steps: seq<Step>): seq<OwedStep> {
    if steps == [] then []
    else (if steps[0].owed && steps[0].action.Run?
          then [OwedStep(steps[0].phase, steps[0].action.command.name, steps[0].action.command.args)] else [])
         + OwedOf(steps[1..])
  }

  function AddOwed(at: Owing, owed: seq<OwedStep>, links: set<string>): Owing
    decreases |owed|
  {
    if owed == [] then at
    else if Skipped(owed[0], at.steps, links) then AddOwed(at, owed[1..], links)
    else AddOwed(Owing(InsertStep(at.steps, StepFor(owed[0])), at.owed + [owed[0]]), owed[1..], links)
  }

  // ----- the whole plan --------------------------------------------------------------

  predicate Lists(listing: seq<Path>, disk: map<Path, Content>) {
    (forall p :: p in listing ==> p in disk) && forall p :: p in disk ==> p in listing
  }

  function PlanFor(r: Rendering, listing: seq<Path>, w: World, probe: Probe): Plan {
    var files := Files(r, listing, w.disk);
    var switches := SwitchChanges(r.switches, w.switches);
    var firewall := Firewall(r.ruleset, r.sets, w, probe);
    var records := RecordChanges(r.records, w.written);
    var steps := StepsOf(r, files, switches, firewall, records, w, probe);
    var owing := AddOwed(Owing(steps, OwedOf(steps)), w.owed, w.links);
    Plan(files, switches, firewall, records, owing.steps, owing.owed, r.waiting, [])
  }
}
