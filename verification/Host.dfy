/** The host a turn acts on: the files, the daemons that read them, the kernel state, and
    what one step does to each of them. */
module Host {
  import opened Orders

  datatype Option<+T> = None | Some(value: T)

  // ----- files and their readers -----------------------------------------------------

  datatype Dir = NetworkdDir | PeersDir | CredentialsDir | DnsmasqDir | UnitDir | UpHookDir | DownHookDir

  datatype Path = Path(dir: Dir, name: string)

  datatype Content = Content(lines: seq<string>, mode: nat)

  /** The three parties that act on a file only when they are told to read it again. */
  datatype Daemon = Networkd | Udev | Systemd

  predicate HasPrefix(s: string, prefix: string) {
    |prefix| <= |s| && s[..|prefix|] == prefix
  }

  predicate HasSuffix(s: string, suffix: string) {
    |suffix| <= |s| && s[|s| - |suffix|..] == suffix
  }

  const LINK_FILE_EXTENSION := ".link"

  /** networkd reads a .network or .netdev in its directory, udev a .link there, systemd a unit. */
  function ReaderOf(p: Path): Option<Daemon> {
    match p.dir
    case NetworkdDir => if HasSuffix(p.name, LINK_FILE_EXTENSION) then Some(Udev) else Some(Networkd)
    case UnitDir => Some(Systemd)
    case _ => None
  }

  function DirText(d: Dir): string {
    match d
    case NetworkdDir => "/etc/systemd/network"
    case PeersDir => "/etc/regied/ppp/peers"
    case CredentialsDir => "/etc/regied/ppp/credentials"
    case DnsmasqDir => "/etc/regied/dnsmasq"
    case UnitDir => "/etc/systemd/system"
    case UpHookDir => "/etc/ppp/ip-up.d"
    case DownHookDir => "/etc/ppp/ip-down.d"
  }

  function PathText(p: Path): string { DirText(p.dir) + "/" + p.name }

  // ----- commands --------------------------------------------------------------------

  /** The one table regied owns, as text, and the sets it declares with what it puts in each. */
  datatype Ruleset = Ruleset(text: string, declared: map<string, seq<string>>)

  datatype SetElements = SetElements(name: string, elements: seq<string>)

  datatype Stdin = NoInput | RulesetInput(ruleset: Ruleset) | SeedInput(sets: seq<SetElements>)

  datatype Command = Command(name: string, args: seq<string>, stdin: Stdin)

  function Systemctl(args: seq<string>): Command { Command("systemctl", args, NoInput) }

  function ReloadOf(d: Daemon): Command {
    match d
    case Networkd => Command("networkctl", ["reload"], NoInput)
    case Udev => Command("udevadm", ["control", "--reload"], NoInput)
    case Systemd => Systemctl(["daemon-reload"])
  }

  const SYS_CLASS_NET := "/sys/class/net/"

  function UdevTrigger(ifname: string): Command {
    Command("udevadm", ["trigger", "--settle", "--action=add", SYS_CLASS_NET + ifname], NoInput)
  }

  function NftCommand(stdin: Stdin): Command { Command("nft", ["-f", "-"], stdin) }

  // ----- DNS records -----------------------------------------------------------------

  datatype RecordId = RecordId(zone: string, name: string, kind: string)

  datatype Record = Record(id: RecordId, content: string, proxied: bool, ttl: nat)

  // ----- steps -----------------------------------------------------------------------

  const FIREWALL := 1
  const KERNEL := 2
  const NETWORKD := 3
  const PROCESS_CONFIG := 4
  const PROCESSES := 5
  const DNS := 6

  datatype Action =
    | Run(command: Command)
    | SeedSets(sets: seq<SetElements>)
    | SetSwitch(key: string, value: string)
    | RemoveFile(path: Path)
    | WriteRecord(record: Record)

  /** `owed` says the step makes written files take effect. */
  datatype Step = Step(phase: int, action: Action, owed: bool)

  /** What a step is called: the text it is described by, kept as what the text is made of.
      The input of a command is not part of its name. */
  datatype Name =
    | CommandName(name: string, args: seq<string>)
    | SeedName(sets: seq<SetElements>)
    | SwitchName(key: string, value: string)
    | RemoveName(path: Path)
    | RecordName(id: RecordId, content: string)

  function Describe(step: Step): Name {
    match step.action
    case Run(c) => CommandName(c.name, c.args)
    case SeedSets(sets) => SeedName(sets)
    case SetSwitch(key, value) => SwitchName(key, value)
    case RemoveFile(path) => RemoveName(path)
    case WriteRecord(record) => RecordName(record.id, record.content)
  }

  /** The same command in the same phase is the same step, whichever turn asked for it. */
  datatype StepKey = StepKey(phase: int, name: Name)

  function KeyOf(step: Step): StepKey { StepKey(step.phase, Describe(step)) }

  function KeysOf(steps: seq<Step>): (keys: set<StepKey>)
    ensures forall s :: s in steps ==> KeyOf(s) in keys
    ensures forall k :: k in keys ==> exists s :: s in steps && KeyOf(s) == k
  {
    set s | s in steps :: KeyOf(s)
  }

  // ----- what is carried between turns -----------------------------------------------

  datatype OwedStep = OwedStep(phase: int, name: string, args: seq<string>)

  function OwedKey(o: OwedStep): StepKey { StepKey(o.phase, CommandName(o.name, o.args)) }

  predicate Reloads(o: OwedStep, d: Daemon) {
    CommandName(o.name, o.args) == CommandName(ReloadOf(d).name, ReloadOf(d).args)
  }

  // ----- the world -------------------------------------------------------------------

  datatype Table = Table(ruleset: Ruleset, sets: map<string, seq<string>>)

  datatype World = World(
    disk: map<Path, Content>,
    seen: map<Path, Content>,          // each file as its reader last read it
    foreign: set<Path>,                // edited by somebody else since its reader last read it
    switches: map<string, string>,
    table: Option<Table>,
    active: set<string>,               // the units that are up
    links: set<string>,
    written: map<RecordId, Record>,    // what this process last put at the DNS provider
    accepted: Option<string>,          // the record: the accepted declaration
    installed: Option<Ruleset>,        // the ruleset the last apply recorded
    owed: seq<OwedStep>)               // what earlier turns left owed

  /** The file's reader has read exactly what is on disk, its absence included. */
  predicate Agrees(w: World, p: Path) {
    && (p in w.disk <==> p in w.seen)
    && (p in w.disk ==> w.disk[p] == w.seen[p])
  }

  function PutFile(w: World, p: Path, c: Content): World {
    w.(disk := w.disk[p := c], foreign := w.foreign - {p})
  }

  function DropFile(w: World, p: Path): World {
    w.(disk := w.disk - {p}, foreign := w.foreign - {p})
  }

  function ReadAgain(w: World, d: Daemon): World {
    w.(seen := (map p | p in w.seen && ReaderOf(p) != Some(d) :: w.seen[p])
             + (map p | p in w.disk && ReaderOf(p) == Some(d) :: w.disk[p]),
       foreign := set p | p in w.foreign && ReaderOf(p) != Some(d))
  }

  function Seeded(sets: map<string, seq<string>>, seeds: seq<SetElements>): map<string, seq<string>>
    decreases |seeds|
  {
    if seeds == [] then sets
    else Seeded(sets[seeds[0].name := Canonical(seeds[0].elements)], seeds[1..])
  }

  /** What a command that succeeds has done. */
  datatype Deed =
      | Reread(daemon: Daemon)
      | BroughtUp(unit: string)
      | TookDown(unit: string)
      | PutTable(ruleset: Ruleset)
      | NothingKept

  function SystemctlDeed(args: seq<string>): Deed {
    if args == ["daemon-reload"] then Reread(Systemd)
    else if |args| == 3 && args[0] == "enable" && args[1] == "--now" then BroughtUp(args[2])
    else if |args| == 2 && (args[0] == "start" || args[0] == "restart") then BroughtUp(args[1])
    else if |args| == 3 && args[0] == "disable" && args[1] == "--now" then TookDown(args[2])
    else NothingKept
  }

  function DeedOf(c: Command): Deed {
    if c.name == "systemctl" then SystemctlDeed(c.args)
    else if c.name == "networkctl" && c.args == ["reload"] then Reread(Networkd)
    else if c.name == "udevadm" && c.args == ["control", "--reload"] then Reread(Udev)
    else if c.name == "nft" && c.stdin.RulesetInput? then PutTable(c.stdin.ruleset)
    else NothingKept
  }

  function CommandEffect(w: World, c: Command): World { Do(w, DeedOf(c)) }

  function Do(w: World, deed: Deed): World {
    match deed
    case Reread(d) => ReadAgain(w, d)
    case BroughtUp(unit) => w.(active := w.active + {unit})
    case TookDown(unit) => w.(active := w.active - {unit})
    case PutTable(ruleset) => w.(table := Some(Table(ruleset, ruleset.declared)))
    case NothingKept => w
  }

  /** What a step that takes effect does. */
  function Effect(w: World, a: Action): World {
    match a
    case Run(c) => CommandEffect(w, c)
    case SeedSets(sets) =>
      if w.table.Some? then w.(table := Some(w.table.value.(sets := Seeded(w.table.value.sets, sets)))) else w
    case SetSwitch(key, value) => w.(switches := w.switches[key := value])
    case RemoveFile(p) => DropFile(w, p)
    case WriteRecord(r) => w.(written := w.written[r.id := r])
  }

  /** How one step can end: done, failed without effect, or failed after having it. */
  datatype Outcome = Done | Failed | FailedLate
}
