/** Rolling sequence numbers: each remote's counter lives in RAM, in NVS and in the settings file,
    and is advanced by commands, by frames heard from the real remote, and by loading. Any number of
    tasks work on the counters without a lock, a save can run beside them, and power can fail between
    any two writes. */
module RollingCode {
  import opened RadioTypes
  import opened CrashSafeStore

  const WRAP: nat := 0x1_0000

  type Node = nat
  /** A `uint16_t`. */
  type Number = n: nat | n < WRAP
  type Counters = map<Node, Number>

  datatype OnAir = OnAir(node: Node, sequence: Number)

  /** What a task that works on a counter is in the middle of. */
  datatype Task =
    | Stamped(node: Node, number: Number)              // number in the frame, counter not yet advanced
    | Storing(node: Node, sending: Option<Number>)     // counter changed in RAM, not yet in NVS
    | Sending(node: Node, number: Number)              // stored, frame not yet handed to the radio

  type Tasks = map<nat, Task>

  datatype Mode =
    | Off
    | On
    | Loading(doc: Counters, todo: set<Node>)          // inside load()

  /** What the task inside save(), if any, has done: the disk it found, the counters read so far, and
      the next disk state it leads to. */
  datatype Saver =
    | NoSave
    | Saving(found: Disk<Counters>, doc: Counters, unread: set<Node>, empty: bool, io: Io, at: nat)

  datatype Gateway = Gateway(
    ram: Counters,
    nvs: Counters,
    disk: Disk<Counters>,
    mode: Mode,
    tasks: Tasks,
    saver: Saver,
    air: seq<OnAir>)

  datatype Step =
    | Command(id: nat, node: Node)                     // the frame gets its number
    | Advance(id: nat)
    | Hear(id: nat, node: Node, next: Number)
    | Learn(id: nat, node: Node, sequence: Number)     // addRemote or importLearnedRemote, before NVS
    | Forget(node: Node)
    | StoreNvs(id: nat)
    | Send(id: nat)
    | BeginSave(io: Io)
    | ReadCounter(node: Node)
    | SaveStep
    | PowerLoss
    | Boot
    | LoadOne(node: Node)
    | LoadDone

  /** The disk states a save leads through; the one at WRITE is the first with the new document. */
  const WRITE: nat := 3

  function Path(w: Saver): seq<Disk<Counters>>
    requires w.Saving?
  {
    SaveStates(w.found, w.doc, w.empty, w.io)
  }

  predicate Enabled(g: Gateway, s: Step) {
    match s
    case Command(id, n) => g.mode == On && id !in g.tasks && n in g.ram
    case Advance(id) => id in g.tasks && g.tasks[id].Stamped? && g.tasks[id].node in g.ram
    case Hear(id, _, _) => g.mode == On && id !in g.tasks
    case Learn(id, _, _) => g.mode == On && id !in g.tasks
    case Forget(n) => g.mode == On && forall id :: id in g.tasks ==> g.tasks[id].node != n
    case StoreNvs(id) => id in g.tasks && g.tasks[id].Storing? && g.tasks[id].node in g.ram
    case Send(id) => id in g.tasks && g.tasks[id].Sending?
    case BeginSave(_) => g.saver == NoSave && g.mode == On
    case ReadCounter(n) => g.saver.Saving? && g.saver.at <= WRITE && n in g.ram
    case SaveStep => g.saver.Saving? && g.saver.at < |Path(g.saver)| && (g.saver.at == WRITE ==> g.saver.unread !! g.ram.Keys)
    case PowerLoss => g.mode != Off
    case Boot => g.mode == Off
    case LoadOne(n) => g.mode.Loading? && n in g.mode.todo && n in g.mode.doc
    case LoadDone => g.mode.Loading? && g.mode.todo == {}
  }

  /** syncSequence moves only forward, by less than half the 16-bit circle. */
  predicate Ahead(current: Number, next: Number) {
    var delta := (next - current) % WRAP;
    delta != 0 && delta < 0x8000
  }

  function Stored(d: Disk<Counters>): Counters {
    if Main in d && d[Main].Whole? then d[Main].doc else map[]
  }

  function Max(a: Number, b: Number): Number {
    if b > a then b else a
  }

  /** What load() makes of one entry. */
  function Loaded(nvs: Counters, node: Node, fromFile: Number): Number {
    if node in nvs then Max(fromFile, nvs[node]) else fromFile
  }

  /** A counter is changed in RAM and on its way to NVS. */
  function Changed(g: Gateway, id: nat, n: Node, number: Number, sending: Option<Number>): Gateway {
    g.(ram := g.ram[n := number], tasks := g.tasks[id := Storing(n, sending)])
  }

  function Next(g: Gateway, s: Step): Gateway
    requires Enabled(g, s)
  {
    match s
    case Command(id, n) => g.(tasks := g.tasks[id := Stamped(n, g.ram[n])])
    case Advance(id) =>
      var t := g.tasks[id];
      Changed(g, id, t.node, (g.ram[t.node] + 1) % WRAP, Some(t.number))
    case Hear(id, n, next) => if n in g.ram && Ahead(g.ram[n], next) then Changed(g, id, n, next, None) else g
    case Learn(id, n, sequence) => Changed(g, id, n, sequence, None)
    case Forget(n) => g.(ram := g.ram - {n})
    case StoreNvs(id) =>
      var t := g.tasks[id];
      g.(nvs := g.nvs[t.node := g.ram[t.node]],
         tasks := if t.sending.Some? then g.tasks[id := Sending(t.node, t.sending.value)] else g.tasks - {id})
    case Send(id) => g.(air := g.air + [OnAir(g.tasks[id].node, g.tasks[id].number)], tasks := g.tasks - {id})
    case BeginSave(io) => g.(saver := Saving(g.disk, map[], g.ram.Keys, g.ram == map[], io, 0))
    case ReadCounter(n) => g.(saver := g.saver.(doc := g.saver.doc[n := g.ram[n]], unread := g.saver.unread - {n}))
    case SaveStep =>
      g.(disk := Path(g.saver)[g.saver.at],
         saver := if g.saver.at + 1 < |Path(g.saver)| then g.saver.(at := g.saver.at + 1) else NoSave)
    case PowerLoss => g.(ram := map[], mode := Off, tasks := map[], saver := NoSave)
    case Boot =>
      var d := Recover(g.disk, RELIABLE);
      g.(disk := d, mode := Loading(Stored(d), Stored(d).Keys))
    case LoadOne(n) =>
      var v := Loaded(g.nvs, n, g.mode.doc[n]);
      g.(nvs := g.nvs[n := v], ram := g.ram[n := v], mode := g.mode.(todo := g.mode.todo - {n}))
    case LoadDone => g.(mode := On)
  }

  // ---------------------------------------------------------------- synchronisation

  /** Hearing the number `k` further on the circle moves the counter there, in RAM and, once stored, in
      NVS, exactly for 1 <= k < 0x8000; otherwise it changes nothing. */
  lemma HearMovesForward(g: Gateway, id: nat, n: Node, k: nat)
    requires n in g.ram && k < 0x1_0000
    requires Enabled(g, Hear(id, n, (g.ram[n] + k) % 0x1_0000))
    ensures var next := (g.ram[n] + k) % 0x1_0000;
      var h := Next(g, Hear(id, n, next));
      if 1 <= k < 0x8000 then
        && h.ram == g.ram[n := next] && h.nvs == g.nvs && Enabled(h, StoreNvs(id))
        && Next(h, StoreNvs(id)) == g.(ram := g.ram[n := next], nvs := g.nvs[n := next], tasks := g.tasks - {id})
      else h == g
  {
    var next := (g.ram[n] + k) % 0x1_0000;
    Distance(g.ram[n], k);
    assert g.tasks[id := Storing(n, None)] - {id} == g.tasks - {id};
  }

  lemma Distance(c: Number, k: nat)
    requires k < 0x1_0000
    ensures ((c + k) % 0x1_0000 - c) % 0x1_0000 == k
  {
  }

  /** Hearing a number lowers the counter exactly if it lies across the end of the circle, less than
      half of it away; up to there no heard number does. */
  lemma HearLowersIff(g: Gateway, id: nat, n: Node, next: Number)
    requires n in g.ram && Enabled(g, Hear(id, n, next))
    ensures n in Next(g, Hear(id, n, next)).ram
    ensures Next(g, Hear(id, n, next)).ram[n] < g.ram[n] <==> next < g.ram[n] && next + 0x8000 < g.ram[n]
    ensures g.ram[n] <= 0x8000 ==> Next(g, Hear(id, n, next)).ram[n] >= g.ram[n]
  {
  }

  // ---------------------------------------------------------------- what keeps the numbers fresh

  /** No number from `number` on went out for the node. */
  ghost predicate NotYetSent(air: seq<OnAir>, node: Node, number: nat) {
    forall i :: 0 <= i < |air| && air[i].node == node ==> air[i].sequence < number
  }

  /** The number a task is going to send. */
  function Carried(t: Task): Option<Number> {
    match t
    case Stamped(_, number) => Some(number)
    case Storing(_, sending) => sending
    case Sending(_, number) => Some(number)
  }

  /** A command for the node is in progress. */
  ghost predicate Busy(tasks: Tasks, n: Node) {
    exists id :: id in tasks && tasks[id].node == n && Carried(tasks[id]).Some?
  }

  /** A counter at `number` stays above what the task sends. */
  predicate Above(t: Task, number: nat) {
    Carried(t).Some? ==>
      if t.Stamped? then t.number <= number && number + 1 < WRAP else Carried(t).value < number
  }

  /** A counter at `number` is above everything sent for the node or about to be. */
  ghost predicate Clear(g: Gateway, n: Node, number: nat) {
    && NotYetSent(g.air, n, number)
    && forall id :: id in g.tasks && g.tasks[id].node == n ==> Above(g.tasks[id], number)
  }

  /** The step neither begins a command for a remote that has one in progress, nor one that carries the
      counter round the 16-bit circle, nor sets a counter to a number sent or about to be. */
  ghost predicate AboveSent(g: Gateway, s: Step)
    requires Enabled(g, s)
  {
    match s
    case Command(_, n) => g.ram[n] + 1 < WRAP && !Busy(g.tasks, n)
    case Hear(_, n, next) => n in g.ram && Ahead(g.ram[n], next) ==> Clear(g, n, next)
    case Learn(_, n, sequence) => Clear(g, n, sequence)
    case _ => true
  }

  // ---------------------------------------------------------------- invariant

  ghost predicate AirBelow(air: seq<OnAir>, nvs: Counters) {
    forall i :: 0 <= i < |air| ==> air[i].node in nvs && air[i].sequence < nvs[air[i].node]
  }

  /** The sequence numbers of each remote strictly increase. */
  ghost predicate Fresh(air: seq<OnAir>) {
    forall i, j :: 0 <= i < j < |air| && air[i].node == air[j].node ==> air[i].sequence < air[j].sequence
  }

  /** The change of a counter is on its way to NVS. */
  ghost predicate StoringOn(tasks: Tasks, n: Node) {
    exists id :: id in tasks && tasks[id].Storing? && tasks[id].node == n
  }

  /** What holds whatever the tasks do: RAM and NVS agree but for changes on their way. */
  ghost predicate Shape(g: Gateway) {
    && (g.mode == Off ==> g.ram == map[])
    && (g.mode != On ==> g.tasks == map[] && g.saver == NoSave)
    && (g.mode.Loading? ==> g.mode.todo <= g.mode.doc.Keys)
    && (forall id :: id in g.tasks ==> g.tasks[id].node in g.ram)
    && (forall n :: n in g.ram ==> (n in g.nvs && g.ram[n] == g.nvs[n]) || StoringOn(g.tasks, n))
  }

  /** The number a task carries has not gone out, and NVS is above it when it does. */
  ghost predicate Ready(g: Gateway, t: Task) {
    Carried(t).Some? ==>
      && NotYetSent(g.air, t.node, Carried(t).value)
      && (t.Sending? ==> t.node in g.nvs && t.number < g.nvs[t.node])
  }

  ghost predicate OneEach(tasks: Tasks) {
    forall id, jd :: id in tasks && jd in tasks && id != jd && tasks[id].node == tasks[jd].node ==>
      Carried(tasks[id]).None? || Carried(tasks[jd]).None?
  }

  ghost predicate Inv(g: Gateway) {
    && Shape(g) && Fresh(g.air) && AirBelow(g.air, g.nvs) && OneEach(g.tasks)
    && (forall id :: id in g.tasks ==> Ready(g, g.tasks[id]))
    && (forall n :: n in g.ram ==> Clear(g, n, g.ram[n]))
  }

  const FACTORY: Gateway := Gateway(map[], map[], map[], Off, map[], NoSave, [])

  lemma StepShape(g: Gateway, s: Step)
    requires Shape(g) && Enabled(g, s)
    ensures Shape(Next(g, s))
  {
    var h := Next(g, s);
    forall n | n in h.ram
      ensures (n in h.nvs && h.ram[n] == h.nvs[n]) || StoringOn(h.tasks, n)
    {
      if n in g.ram && StoringOn(g.tasks, n) {
        var id :| id in g.tasks && g.tasks[id].Storing? && g.tasks[id].node == n;
        assert id in h.tasks ==> h.tasks[id].node == n;
      }
      if s.Advance? || s.Hear? || s.Learn? {
        assert s.id in h.tasks ==> h.tasks[s.id].node in h.ram;
      }
    }
  }

  /** A task whose number is clear of those of the others. */
  lemma OneTaskMore(tasks: Tasks, id: nat, t: Task)
    requires OneEach(tasks)
    requires forall jd :: jd in tasks && jd != id && tasks[jd].node == t.node ==> Carried(t).None? || Carried(tasks[jd]).None?
    ensures OneEach(tasks[id := t])
  {
  }

  lemma CommandInv(g: Gateway, id: nat, n: Node)
    requires Inv(g) && Enabled(g, Command(id, n)) && AboveSent(g, Command(id, n))
    ensures Inv(Next(g, Command(id, n)))
  {
    var h := Next(g, Command(id, n));
    StepShape(g, Command(id, n));
    OneTaskMore(g.tasks, id, Stamped(n, g.ram[n]));
    hide Shape, OneEach, Fresh, AirBelow, Busy, NotYetSent;
    forall m | m in h.ram
      ensures Clear(h, m, h.ram[m])
    {
      assert Clear(g, m, g.ram[m]);
    }
  }

  lemma AdvanceInv(g: Gateway, id: nat)
    requires Inv(g) && Enabled(g, Advance(id))
    ensures Inv(Next(g, Advance(id)))
  {
    var t := g.tasks[id];
    assert Ready(g, t);
    StepShape(g, Advance(id));
    OneTaskMore(g.tasks, id, Storing(t.node, Some(t.number)));
    AdvanceClear(g, id);
    hide Shape, OneEach, Fresh, AirBelow, Clear, NotYetSent;
  }

  lemma AdvanceClear(g: Gateway, id: nat)
    requires Inv(g) && Enabled(g, Advance(id))
    ensures var h := Next(g, Advance(id)); forall n :: n in h.ram ==> Clear(h, n, h.ram[n])
  {
    hide Shape, Ready, Fresh, AirBelow;
    var h, t := Next(g, Advance(id)), g.tasks[id];
    assert Clear(g, t.node, g.ram[t.node]);
    forall n | n in h.ram
      ensures Clear(h, n, h.ram[n])
    {
      assert n != t.node ==> Clear(g, n, g.ram[n]);
    }
  }

  /** A counter set to a number that is clear. */
  lemma ChangedInv(g: Gateway, id: nat, n: Node, number: Number)
    requires Inv(g) && id !in g.tasks && Clear(g, n, number)
    requires var h := Changed(g, id, n, number, None); Shape(h)
    ensures Inv(Changed(g, id, n, number, None))
  {
    hide Shape;
  }

  lemma StoreClear(g: Gateway, id: nat)
    requires Inv(g) && Enabled(g, StoreNvs(id))
    ensures var h := Next(g, StoreNvs(id)); OneEach(h.tasks) && forall n :: n in h.ram ==> Clear(h, n, h.ram[n])
  {
    hide Shape, NotYetSent, Ready, Fresh, AirBelow;
    var h := Next(g, StoreNvs(id));
    forall n | n in h.ram
      ensures Clear(h, n, h.ram[n])
    {
      assert Clear(g, n, g.ram[n]);
    }
  }

  lemma StoreInv(g: Gateway, id: nat)
    requires Inv(g) && Enabled(g, StoreNvs(id))
    ensures Inv(Next(g, StoreNvs(id)))
  {
    StepShape(g, StoreNvs(id));
    StoreReady(g, id);
    StoreClear(g, id);
    AirStaysBelow(g, g.tasks[id].node);
    hide Shape, Ready, Clear, OneEach, AirBelow;
  }

  lemma AirStaysBelow(g: Gateway, n: Node)
    requires AirBelow(g.air, g.nvs) && n in g.ram && Clear(g, n, g.ram[n])
    ensures AirBelow(g.air, g.nvs[n := g.ram[n]])
  {
  }

  lemma StoreReady(g: Gateway, id: nat)
    requires Inv(g) && Enabled(g, StoreNvs(id))
    ensures var h := Next(g, StoreNvs(id)); forall jd :: jd in h.tasks ==> Ready(h, h.tasks[jd])
  {
    var h, t := Next(g, StoreNvs(id)), g.tasks[id];
    assert Clear(g, t.node, g.ram[t.node]) && Ready(g, t);
    forall jd | jd in h.tasks
      ensures Ready(h, h.tasks[jd])
    {
      assert Ready(g, g.tasks[jd]);
      assert g.tasks[jd].node == t.node ==> Above(g.tasks[jd], g.ram[t.node]);
    }
  }

  lemma SendFresh(g: Gateway, id: nat)
    requires Inv(g) && Enabled(g, Send(id))
    ensures Fresh(Next(g, Send(id)).air) && AirBelow(Next(g, Send(id)).air, g.nvs)
  {
    assert Ready(g, g.tasks[id]);
  }

  lemma SendClear(g: Gateway, id: nat)
    requires Inv(g) && Enabled(g, Send(id))
    ensures var h := Next(g, Send(id)); forall n :: n in h.ram ==> Clear(h, n, h.ram[n])
  {
    var h, t := Next(g, Send(id)), g.tasks[id];
    hide Shape, Fresh, AirBelow, OneEach, Ready;
    forall n | n in h.ram
      ensures Clear(h, n, h.ram[n])
    {
      assert Clear(g, n, g.ram[n]);
    }
  }

  lemma SendReady(g: Gateway, id: nat)
    requires Inv(g) && Enabled(g, Send(id))
    ensures var h := Next(g, Send(id)); forall jd :: jd in h.tasks ==> Ready(h, h.tasks[jd])
  {
    var h := Next(g, Send(id));
    hide Shape, Fresh, AirBelow, Clear;
    forall jd | jd in h.tasks
      ensures Ready(h, h.tasks[jd])
    {
      assert Ready(g, g.tasks[jd]);
    }
  }

  lemma SendInv(g: Gateway, id: nat)
    requires Inv(g) && Enabled(g, Send(id))
    ensures Inv(Next(g, Send(id)))
  {
    SendFresh(g, id);
    SendClear(g, id);
    SendReady(g, id);
    StepShape(g, Send(id));
    hide Shape, Fresh, AirBelow, Clear, Ready;
  }

  lemma LoadInv(g: Gateway, n: Node)
    requires Inv(g) && Enabled(g, LoadOne(n))
    ensures Inv(Next(g, LoadOne(n)))
  {
    StepShape(g, LoadOne(n));
    assert g.tasks == map[];
    hide Shape;
  }

  lemma StepInv(g: Gateway, s: Step)
    requires Inv(g) && Enabled(g, s) && AboveSent(g, s)
    ensures Inv(Next(g, s))
  {
    StepShape(g, s);
    match s
    case Command(id, n) => CommandInv(g, id, n);
    case Advance(id) => AdvanceInv(g, id);
    case Hear(id, n, next) =>
      if n in g.ram && Ahead(g.ram[n], next) {
        ChangedInv(g, id, n, next);
      }
    case Learn(id, n, sequence) => ChangedInv(g, id, n, sequence);
    case StoreNvs(id) => StoreInv(g, id);
    case Send(id) => SendInv(g, id);
    case LoadOne(n) => LoadInv(g, n);
    case _ =>
  }

  // ---------------------------------------------------------------- whole runs

  ghost predicate IsRun(g: Gateway, steps: seq<Step>)
    decreases |steps|
  {
    steps != [] ==> Enabled(g, steps[0]) && IsRun(Next(g, steps[0]), steps[1..])
  }

  ghost function After(g: Gateway, steps: seq<Step>): Gateway
    requires IsRun(g, steps)
    decreases |steps|
  {
    if steps == [] then g else After(Next(g, steps[0]), steps[1..])
  }

  ghost predicate AllAboveSent(g: Gateway, steps: seq<Step>)
    requires IsRun(g, steps)
    decreases |steps|
  {
    steps != [] ==> AboveSent(g, steps[0]) && AllAboveSent(Next(g, steps[0]), steps[1..])
  }

  lemma {:induction false} RunInv(g: Gateway, steps: seq<Step>)
    requires Inv(g) && IsRun(g, steps) && AllAboveSent(g, steps)
    ensures Inv(After(g, steps))
    decreases |steps|
  {
    if steps != [] {
      StepInv(g, steps[0]);
      RunInv(Next(g, steps[0]), steps[1..]);
    }
  }

  /** From the factory on, with any number of tasks at work, saves running beside them and power lost at
      any step any number of times: the numbers each remote puts on air strictly increase, and NVS is
      above all of them. */
  lemma CodesStayFresh(steps: seq<Step>)
    requires IsRun(FACTORY, steps) && AllAboveSent(FACTORY, steps)
    ensures var g := After(FACTORY, steps); Fresh(g.air) && AirBelow(g.air, g.nvs)
  {
    RunInv(FACTORY, steps);
  }

  /** The step neither carries a counter round the 16-bit circle nor sets one below its number in RAM or
      in NVS. */
  predicate Forward(g: Gateway, s: Step)
    requires Enabled(g, s)
  {
    match s
    case Advance(id) => g.ram[g.tasks[id].node] + 1 < WRAP
    case Hear(_, n, next) => n in g.ram && Ahead(g.ram[n], next) ==> next > g.ram[n]
    case Learn(_, n, sequence) => (n in g.ram ==> sequence >= g.ram[n]) && (n in g.nvs ==> sequence >= g.nvs[n])
    case _ => true
  }

  ghost predicate AllForward(g: Gateway, steps: seq<Step>)
    requires IsRun(g, steps)
    decreases |steps|
  {
    steps != [] ==> Forward(g, steps[0]) && AllForward(Next(g, steps[0]), steps[1..])
  }

  lemma {:induction false} RunConcat(g: Gateway, first: seq<Step>, second: seq<Step>)
    requires IsRun(g, first) && IsRun(After(g, first), second)
    ensures IsRun(g, first + second) && After(g, first + second) == After(After(g, first), second)
    ensures AllAboveSent(g, first) && AllAboveSent(After(g, first), second) ==> AllAboveSent(g, first + second)
    ensures AllForward(g, first) && AllForward(After(g, first), second) ==> AllForward(g, first + second)
    decreases |first|
  {
    hide Next, Enabled, AboveSent, Forward;
    if first == [] {
      assert first + second == second;
    } else {
      assert (first + second)[1..] == first[1..] + second;
      RunConcat(Next(g, first[0]), first[1..], second);
    }
  }

  lemma Cons(g: Gateway, s: Step, rest: seq<Step>) returns (steps: seq<Step>)
    requires Enabled(g, s) && IsRun(Next(g, s), rest)
    ensures steps == [s] + rest && IsRun(g, steps) && After(g, steps) == After(Next(g, s), rest)
    ensures AboveSent(g, s) && AllAboveSent(Next(g, s), rest) ==> AllAboveSent(g, steps)
    ensures Forward(g, s) && AllForward(Next(g, s), rest) ==> AllForward(g, steps)
  {
    steps := [s] + rest;
    assert steps[1..] == rest;
  }

  /** The gateway when a command in progress is over and nothing else happened. */
  function Finished(g: Gateway, id: nat): Gateway
    requires id in g.tasks && Carried(g.tasks[id]).Some? && g.tasks[id].node in g.ram
  {
    var t := g.tasks[id];
    var ram := if t.Stamped? then g.ram[t.node := (g.ram[t.node] + 1) % WRAP] else g.ram;
    g.(ram := ram, nvs := if t.Sending? then g.nvs else g.nvs[t.node := ram[t.node]],
       tasks := g.tasks - {id}, air := g.air + [OnAir(t.node, Carried(t).value)])
  }

  /** The next step of a command in progress. */
  function Onward(t: Task, id: nat): Step {
    if t.Stamped? then Advance(id) else if t.Storing? then StoreNvs(id) else Send(id)
  }

  /** `h` is `g` with the command one step further. */
  ghost predicate Further(g: Gateway, h: Gateway, id: nat)
    requires id in g.tasks && Carried(g.tasks[id]).Some? && g.tasks[id].node in g.ram
  {
    && id in h.tasks && h.tasks[id].node == g.tasks[id].node && h.tasks[id].node in h.ram
    && Carried(h.tasks[id]) == Carried(g.tasks[id]) && Finished(h, id) == Finished(g, id)
    && (g.tasks[id].Stamped? ==> h.tasks[id].Storing?) && (g.tasks[id].Storing? ==> h.tasks[id].Sending?)
  }

  lemma FinishesAlike(g: Gateway, id: nat)
    requires id in g.tasks && Carried(g.tasks[id]).Some? && g.tasks[id].node in g.ram
    ensures var s := Onward(g.tasks[id], id);
            && Enabled(g, s) && AboveSent(g, s)
            && if s.Send? then Next(g, s) == Finished(g, id) else Further(g, Next(g, s), id)
  {
    var h := Next(g, Onward(g.tasks[id], id));
    assert h.tasks - {id} == g.tasks - {id};
  }

  lemma {:induction false} FinishRun(g: Gateway, id: nat) returns (steps: seq<Step>)
    requires id in g.tasks && Carried(g.tasks[id]).Some? && g.tasks[id].node in g.ram
    ensures IsRun(g, steps) && AllAboveSent(g, steps) && After(g, steps) == Finished(g, id)
    ensures (g.tasks[id].Stamped? ==> g.ram[g.tasks[id].node] + 1 < WRAP) ==> AllForward(g, steps)
    decreases if g.tasks[id].Stamped? then 2 else if g.tasks[id].Storing? then 1 else 0
  {
    var s := Onward(g.tasks[id], id);
    FinishesAlike(g, id);
    hide Finished, AboveSent;
    steps := [];
    if !s.Send? {
      steps := FinishRun(Next(g, s), id);
    }
    steps := Cons(g, s, steps);
  }

  /** The gateway after a whole command. */
  function Commanded(g: Gateway, n: Node): Gateway
    requires n in g.ram
  {
    var next := (g.ram[n] + 1) % WRAP;
    g.(ram := g.ram[n := next], nvs := g.nvs[n := next], air := g.air + [OnAir(n, g.ram[n])])
  }

  /** A command, from the number in its frame to the air. */
  lemma CommandRun(g: Gateway, id: nat, n: Node) returns (steps: seq<Step>)
    requires Enabled(g, Command(id, n))
    ensures IsRun(g, steps) && After(g, steps) == Commanded(g, n)
    ensures AboveSent(g, Command(id, n)) ==> AllAboveSent(g, steps)
    ensures g.ram[n] + 1 < WRAP ==> AllForward(g, steps)
  {
    var h := Next(g, Command(id, n));
    assert h.tasks - {id} == g.tasks;
    assert Finished(h, id) == Commanded(g, n);
    steps := FinishRun(h, id);
    hide Finished, Commanded, AboveSent;
    steps := Cons(g, Command(id, n), steps);
  }

  // ---------------------------------------------------------------- the condition is exact

  /** A number goes out that is not above one before it. */
  lemma NotFresh(air: seq<OnAir>, i: nat, j: nat)
    requires i < j < |air| && air[i].node == air[j].node && air[i].sequence >= air[j].sequence
    ensures !Fresh(air)
  {
  }

  /** Two commands for one remote overlap: the later one finishes first. */
  lemma OverlapRun(g: Gateway, id: nat, n: Node) returns (steps: seq<Step>)
    requires Inv(g) && Enabled(g, Command(id, n)) && Busy(g.tasks, n)
    ensures var t := Next(g, Command(id, n));
            IsRun(t, steps) && AllAboveSent(t, steps) && !Fresh(After(t, steps).air)
  {
    var jd :| jd in g.tasks && g.tasks[jd].node == n && Carried(g.tasks[jd]).Some?;
    assert Clear(g, n, g.ram[n]);
    var t := Next(g, Command(id, n));
    var u := Finished(t, id);
    NotFresh(Finished(u, jd).air, |g.air|, |g.air| + 1);
    hide *;
    steps := FinishRun(t, id);
    var more := FinishRun(u, jd);
    RunConcat(t, steps, more);
    steps := steps + more;
  }

  /** A command carries the counter round, and the next one sends 0. */
  lemma WrapRun(g: Gateway, id: nat, n: Node) returns (steps: seq<Step>)
    requires Inv(g) && Enabled(g, Command(id, n)) && g.ram[n] == WRAP - 1 && !Busy(g.tasks, n)
    ensures var t := Next(g, Command(id, n));
            IsRun(t, steps) && AllAboveSent(t, steps) && !Fresh(After(t, steps).air)
  {
    var t := Next(g, Command(id, n));
    var u := Finished(t, id);
    assert u.tasks == g.tasks && AboveSent(u, Command(id, n));
    NotFresh(Commanded(u, n).air, |g.air|, |g.air| + 1);
    hide *;
    steps := FinishRun(t, id);
    var more := CommandRun(u, id, n);
    RunConcat(t, steps, more);
    steps := steps + more;
  }

  lemma AboveIsClear(g: Gateway, jd: nat, number: Number)
    requires Inv(g) && jd in g.tasks && Carried(g.tasks[jd]).Some? && Above(g.tasks[jd], number)
    ensures Clear(g, g.tasks[jd].node, number)
  {
    assert Ready(g, g.tasks[jd]);
  }

  /** A counter set below a command in progress is at or below its number when that is sent. */
  lemma Overtaken(g: Gateway, jd: nat, number: Number)
    requires Inv(g) && jd in g.tasks && Carried(g.tasks[jd]).Some? && !Above(g.tasks[jd], number)
    ensures var counter := if g.tasks[jd].Stamped? then (number + 1) % WRAP else number;
            counter <= Carried(g.tasks[jd]).value && counter + 1 < WRAP
  {
    assert Clear(g, g.tasks[jd].node, g.ram[g.tasks[jd].node]);
  }

  lemma NotBusyAfter(tasks: Tasks, jd: nat)
    requires OneEach(tasks) && jd in tasks && Carried(tasks[jd]).Some?
    ensures !Busy(tasks - {jd}, tasks[jd].node)
  {
  }

  /** After a counter was set below a command in progress, the command after that one goes back. */
  lemma SetBelowRun(g: Gateway, id: nat, jd: nat, number: Number) returns (steps: seq<Step>)
    requires Inv(g) && g.mode == On && jd in g.tasks && Carried(g.tasks[jd]).Some? && !Above(g.tasks[jd], number)
    requires id !in g.tasks
    ensures var u := g.(ram := g.ram[g.tasks[jd].node := number], nvs := g.nvs[g.tasks[jd].node := number]);
            IsRun(u, steps) && AllAboveSent(u, steps) && !Fresh(After(u, steps).air)
  {
    var n := g.tasks[jd].node;
    var u := g.(ram := g.ram[n := number], nvs := g.nvs[n := number]);
    var v := Finished(u, jd);
    Overtaken(g, jd, number);
    NotBusyAfter(g.tasks, jd);
    NotFresh(Commanded(v, n).air, |g.air|, |g.air| + 1);
    assert Enabled(v, Command(id, n)) && AboveSent(v, Command(id, n));
    hide *;
    steps := FinishRun(u, jd);
    var more := CommandRun(v, id, n);
    RunConcat(u, steps, more);
    steps := steps + more;
  }

  /** After a counter was set to a number that was sent, the next command goes back. */
  lemma SetToSentRun(g: Gateway, id: nat, n: Node, number: Number) returns (steps: seq<Step>)
    requires Inv(g) && g.mode == On && id !in g.tasks && !Busy(g.tasks, n) && !NotYetSent(g.air, n, number)
    ensures var u := g.(ram := g.ram[n := number], nvs := g.nvs[n := number]);
            IsRun(u, steps) && AllAboveSent(u, steps) && !Fresh(After(u, steps).air)
  {
    var u := g.(ram := g.ram[n := number], nvs := g.nvs[n := number]);
    var i :| 0 <= i < |g.air| && g.air[i].node == n && g.air[i].sequence >= number;
    NotFresh(Commanded(u, n).air, i, |g.air|);
    assert Enabled(u, Command(id, n)) && AboveSent(u, Command(id, n));
    hide *;
    steps := CommandRun(u, id, n);
  }

  lemma SetBackRun(g: Gateway, id: nat, n: Node, number: Number) returns (steps: seq<Step>)
    requires Inv(g) && g.mode == On && id !in g.tasks && !Clear(g, n, number)
    ensures var t := Changed(g, id, n, number, None);
            IsRun(t, steps) && AllAboveSent(t, steps) && !Fresh(After(t, steps).air)
  {
    var t := Changed(g, id, n, number, None);
    assert t.tasks - {id} == g.tasks;
    assert Next(t, StoreNvs(id)) == g.(ram := g.ram[n := number], nvs := g.nvs[n := number]);
    hide Next, Changed, AllAboveSent, IsRun, After, Fresh, AirBelow, Ready;
    if jd :| jd in g.tasks && g.tasks[jd].node == n && Carried(g.tasks[jd]).Some? {
      if Above(g.tasks[jd], number) {
        AboveIsClear(g, jd, number);
      }
      steps := SetBelowRun(g, id, jd, number);
    } else {
      steps := SetToSentRun(g, id, n, number);
    }
    steps := Cons(t, StoreNvs(id), steps);
  }

  /** A step makes it possible that a number goes out which is not above those before it, exactly when
      it is not of that kind itself. In particular commands may overlap if they are for different
      remotes, and only then. */
  lemma FreshLostIff(g: Gateway, s: Step)
    requires Inv(g) && Enabled(g, s)
    ensures var t := Next(g, s);
            (exists steps :: IsRun(t, steps) && AllAboveSent(t, steps) && !Fresh(After(t, steps).air)) <==> !AboveSent(g, s)
  {
    var t := Next(g, s);
    if AboveSent(g, s) {
      StepInv(g, s);
      forall steps | IsRun(t, steps) && AllAboveSent(t, steps)
        ensures Fresh(After(t, steps).air)
      {
        RunInv(t, steps);
      }
    } else if s.Command? && Busy(g.tasks, s.node) {
      var steps := OverlapRun(g, s.id, s.node);
    } else if s.Command? {
      var steps := WrapRun(g, s.id, s.node);
    } else {
      var steps := SetBackRun(g, s.id, s.node, if s.Hear? then s.next else s.sequence);
    }
  }

  // ---------------------------------------------------------------- the files and NVS

  /** Every counter of `doc` is in NVS, at least as large. */
  predicate Below(doc: Counters, nvs: Counters) {
    forall n :: n in doc ==> n in nvs && doc[n] <= nvs[n]
  }

  ghost predicate DiskBelow(d: Disk<Counters>, nvs: Counters) {
    forall name :: name in d && d[name].Whole? ==> Below(d[name].doc, nvs)
  }

  /** The save gets as far as writing its document. */
  predicate Writes(w: Saver) {
    w.Saving? && w.io.lockOk && !w.empty && w.io.openOk && w.io.writeOk
  }

  /** The step completes a document that read a counter whose change is still on its way to NVS. */
  ghost predicate CompletesAhead(g: Gateway, s: Step) {
    && s.SaveStep? && Writes(g.saver) && g.saver.at == WRITE
    && exists n :: n in g.saver.doc && StoringOn(g.tasks, n) && (n in g.nvs ==> g.nvs[n] < g.saver.doc[n])
  }

  /** A counter read by the save is not ahead of NVS, or its change is on its way. */
  ghost predicate CounterInStep(g: Gateway, n: Node)
    requires g.saver.Saving? && n in g.saver.doc
  {
    || (n in g.nvs && g.saver.doc[n] <= g.nvs[n])
    || (StoringOn(g.tasks, n) && n in g.ram && g.saver.doc[n] <= g.ram[n])
  }

  /** Only a counter being changed can have been read ahead of NVS. */
  ghost predicate ReadInStep(g: Gateway)
    requires g.saver.Saving?
  {
    forall n :: n in g.saver.doc ==> CounterInStep(g, n)
  }

  ghost predicate FilesInv(g: Gateway) {
    && Shape(g) && DiskBelow(g.disk, g.nvs)
    && (forall n :: n in g.ram && n in g.nvs ==> g.nvs[n] <= g.ram[n])
    && (g.mode.Loading? ==> Below(g.mode.doc, g.nvs))
    && (g.saver.Saving? ==>
          && DiskBelow(g.saver.found, g.nvs) && ReadInStep(g)
          && (g.saver.at > WRITE && Writes(g.saver) ==> Below(g.saver.doc, g.nvs)))
  }

  lemma {:induction false} EarlierFiles(w: Saver, nvs: Counters, i: nat)
    requires w.Saving? && DiskBelow(w.found, nvs) && i < |Path(w)| && (i < WRITE || !Writes(w))
    ensures DiskBelow(Path(w)[i], nvs)
  {
  }

  /** At WRITE the document is in the temporary file. */
  lemma WrittenFile(w: Saver, nvs: Counters)
    requires Writes(w) && DiskBelow(w.found, nvs)
    ensures WRITE < |Path(w)| && (DiskBelow(Path(w)[WRITE], nvs) <==> Below(w.doc, nvs))
  {
    SaveIsSwap(w.found, w.doc, w.io);
    var t := Written(w.found, w.doc);
    assert Path(w)[WRITE] == t && t[Temp] == Whole(w.doc);
  }

  lemma SwapKeepsBelow(d: Disk<Counters>, io: Io, nvs: Counters)
    requires DiskBelow(d, nvs) && Temp in d
    ensures forall i :: 0 <= i < |Swap(d, io)| ==> DiskBelow(Swap(d, io)[i], nvs)
  {
  }

  lemma LaterFiles(w: Saver, nvs: Counters, i: nat)
    requires Writes(w) && DiskBelow(w.found, nvs) && Below(w.doc, nvs) && WRITE <= i < |Path(w)|
    ensures DiskBelow(Path(w)[i], nvs)
  {
    SaveIsSwap(w.found, w.doc, w.io);
    assert DiskBelow(Written(w.found, w.doc), nvs);
    SwapKeepsBelow(Written(w.found, w.doc), w.io, nvs);
  }

  lemma NvsGrows(g: Gateway, nvs: Counters)
    requires FilesInv(g) && (forall n :: n in g.nvs ==> n in nvs && g.nvs[n] <= nvs[n])
    ensures DiskBelow(g.disk, nvs) && (g.saver.Saving? ==> DiskBelow(g.saver.found, nvs))
  {
  }

  /** A step of a save leaves a file ahead of NVS exactly when it completes one that is. */
  lemma SaveStepFiles(g: Gateway)
    requires FilesInv(g) && Enabled(g, SaveStep)
    ensures DiskBelow(Next(g, SaveStep).disk, g.nvs) <==> !CompletesAhead(g, SaveStep)
    ensures !CompletesAhead(g, SaveStep) ==> FilesInv(Next(g, SaveStep))
  {
    var w := g.saver;
    if w.at < WRITE || !Writes(w) {
      EarlierFiles(w, g.nvs, w.at);
    } else {
      WrittenFile(w, g.nvs);
      if Below(w.doc, g.nvs) {
        LaterFiles(w, g.nvs, w.at);
      }
    }
  }

  /** A change on its way stays on its way, unless it is the one that is stored. */
  lemma StoringStays(g: Gateway, s: Step, n: Node)
    requires Shape(g) && Enabled(g, s) && StoringOn(g.tasks, n) && !s.PowerLoss? && !s.Boot?
    requires s.StoreNvs? ==> g.tasks[s.id].node != n
    ensures StoringOn(Next(g, s).tasks, n)
  {
    var id :| id in g.tasks && g.tasks[id].Storing? && g.tasks[id].node == n;
    var h := Next(g, s);
    assert id in h.tasks && h.tasks[id].Storing? && h.tasks[id].node == n;
  }

  lemma CounterStaysInStep(g: Gateway, s: Step, n: Node)
    requires Shape(g) && Enabled(g, s) && Forward(g, s) && g.saver.Saving? && Next(g, s).saver.Saving?
    requires !s.SaveStep? && !s.BeginSave? && n in Next(g, s).saver.doc
    requires n in g.saver.doc ==> CounterInStep(g, n)
    requires n in g.ram && n in g.nvs ==> g.nvs[n] <= g.ram[n]
    ensures CounterInStep(Next(g, s), n)
  {
    if StoringOn(g.tasks, n) && !(s.StoreNvs? && g.tasks[s.id].node == n) {
      StoringStays(g, s, n);
    }
    hide StoringOn, Ahead;
  }

  lemma ReadStaysInStep(g: Gateway, s: Step)
    requires FilesInv(g) && Enabled(g, s) && Forward(g, s) && g.saver.Saving? && Next(g, s).saver.Saving?
    requires !s.SaveStep? && !s.BeginSave?
    ensures ReadInStep(Next(g, s))
  {
    forall n | n in Next(g, s).saver.doc
      ensures CounterInStep(Next(g, s), n)
    {
      assert n in g.saver.doc ==> CounterInStep(g, n);
      CounterStaysInStep(g, s, n);
    }
    hide Next, Enabled;
  }

  /** A save or the gateway starts or stops. */
  lemma SwitchFiles(g: Gateway, s: Step)
    requires FilesInv(g) && Enabled(g, s) && (s.BeginSave? || s.Boot? || s.PowerLoss?)
    ensures FilesInv(Next(g, s))
  {
    StepShape(g, s);
    hide Shape, StoringOn;
  }

  /** What all other steps but those of a save leave alone. */
  lemma CounterFrame(g: Gateway, s: Step)
    requires Enabled(g, s) && !s.SaveStep? && !s.BeginSave? && !s.Boot? && !s.PowerLoss?
    ensures var h := Next(g, s);
            && h.disk == g.disk && (h.mode.Loading? ==> g.mode.Loading? && h.mode.doc == g.mode.doc)
            && h.saver.Saving? == g.saver.Saving?
            && (g.saver.Saving? ==> h.saver.found == g.saver.found && h.saver.at == g.saver.at)
            && (g.saver.Saving? && g.saver.at > WRITE ==> h.saver == g.saver)
  {
  }

  lemma RamStaysAhead(g: Gateway, s: Step)
    requires FilesInv(g) && Enabled(g, s) && Forward(g, s)
    ensures var h := Next(g, s); forall n :: n in h.ram && n in h.nvs ==> h.nvs[n] <= h.ram[n]
    ensures forall n :: n in g.nvs ==> n in Next(g, s).nvs && g.nvs[n] <= Next(g, s).nvs[n]
  {
    hide Shape, StoringOn, DiskBelow, Below, ReadInStep, Ahead, Path;
  }

  lemma CounterFiles(g: Gateway, s: Step)
    requires FilesInv(g) && Enabled(g, s) && Forward(g, s)
    requires !s.SaveStep? && !s.BeginSave? && !s.Boot? && !s.PowerLoss?
    ensures FilesInv(Next(g, s))
  {
    CounterFrame(g, s);
    RamStaysAhead(g, s);
    StepShape(g, s);
    NvsGrows(g, Next(g, s).nvs);
    if g.saver.Saving? {
      ReadStaysInStep(g, s);
    }
    hide Next, Enabled, Forward, Shape, ReadInStep, DiskBelow;
  }

  lemma FilesStep(g: Gateway, s: Step)
    requires FilesInv(g) && Enabled(g, s) && Forward(g, s) && !CompletesAhead(g, s)
    ensures FilesInv(Next(g, s))
  {
    hide FilesInv, Next, Enabled;
    if s.SaveStep? {
      SaveStepFiles(g);
    } else if s.BeginSave? || s.Boot? || s.PowerLoss? {
      SwitchFiles(g, s);
    } else {
      CounterFiles(g, s);
    }
  }

  /** No file is ahead of NVS, in any state of the run. */
  ghost predicate FilesStayBelow(g: Gateway, steps: seq<Step>)
    requires IsRun(g, steps)
    decreases |steps|
  {
    DiskBelow(g.disk, g.nvs) && (steps != [] ==> FilesStayBelow(Next(g, steps[0]), steps[1..]))
  }

  ghost predicate NoneCompletesAhead(g: Gateway, steps: seq<Step>)
    requires IsRun(g, steps)
    decreases |steps|
  {
    steps != [] ==> !CompletesAhead(g, steps[0]) && NoneCompletesAhead(Next(g, steps[0]), steps[1..])
  }

  lemma {:induction false} RunFiles(g: Gateway, steps: seq<Step>)
    requires FilesInv(g) && IsRun(g, steps) && AllForward(g, steps)
    ensures FilesStayBelow(g, steps) <==> NoneCompletesAhead(g, steps)
    decreases |steps|
  {
    if steps != [] {
      var s := steps[0];
      if CompletesAhead(g, s) {
        SaveStepFiles(g);
      } else {
        FilesStep(g, s);
        RunFiles(Next(g, s), steps[1..]);
      }
    }
  }

  /** With counters that only move forward, however the tasks overlap, no counter in any file is ever
      ahead of NVS exactly when no save completes a document
      between a change of a counter it has read and the write of that change to NVS. */
  lemma FilesBelowIff(steps: seq<Step>)
    requires IsRun(FACTORY, steps) && AllForward(FACTORY, steps)
    ensures FilesStayBelow(FACTORY, steps) <==> NoneCompletesAhead(FACTORY, steps)
  {
    RunFiles(FACTORY, steps);
  }

  // ---------------------------------------------------------------- runs that show the limits

  /** A gateway fresh from the factory that has learned one remote. */
  function Learned(n: Node, sequence: Number): Gateway {
    Gateway(map[n := sequence], map[n := sequence], map[], On, map[], NoSave, [])
  }

  lemma LearnRun(n: Node, sequence: Number) returns (steps: seq<Step>)
    ensures IsRun(FACTORY, steps) && AllForward(FACTORY, steps) && After(FACTORY, steps) == Learned(n, sequence)
  {
    var booted := Next(FACTORY, Boot);
    var ready := Next(booted, LoadDone);
    var changed := Next(ready, Learn(0, n, sequence));
    steps := Cons(changed, StoreNvs(0), []);
    steps := Cons(ready, Learn(0, n, sequence), steps);
    steps := Cons(booted, LoadDone, steps);
    steps := Cons(FACTORY, Boot, steps);
  }

  /** A save that has read what it needs runs to its end. */
  lemma {:induction false} FinishSave(g: Gateway) returns (steps: seq<Step>)
    requires g.saver.Saving? && g.saver.unread == {} && g.saver.at < |Path(g.saver)|
    ensures IsRun(g, steps) && AllForward(g, steps)
    ensures After(g, steps) == g.(disk := Last(Path(g.saver)), saver := NoSave)
    decreases |Path(g.saver)| - g.saver.at
  {
    var h := Next(g, SaveStep);
    steps := [];
    if h.saver.Saving? {
      steps := FinishSave(h);
    }
    steps := Cons(g, SaveStep, steps);
  }

  const WORKS: Io := Io(true, true, true, true, true, true)

  /** A save of one counter on a disk without files. */
  lemma SaveRun(g: Gateway, n: Node) returns (steps: seq<Step>)
    requires g.saver == NoSave && g.disk == map[] && g.ram.Keys == {n} && g.mode == On
    ensures IsRun(g, steps) && AllForward(g, steps)
    ensures After(g, steps) == g.(disk := map[Main := Whole(map[n := g.ram[n]])])
  {
    var begun := Next(g, BeginSave(WORKS));
    assert g.ram != map[] by {
      assert n in g.ram;
    }
    var read := Next(begun, ReadCounter(n));
    var doc := map[n := g.ram[n]];
    assert read.saver.doc == doc && read.saver.unread == {};
    SaveIsSwap(map[], doc, WORKS);
    OnlyMain(doc);
    steps := FinishSave(read);
    steps := Cons(begun, ReadCounter(n), steps);
    steps := Cons(g, BeginSave(WORKS), steps);
  }

  lemma OnlyMain(doc: Counters)
    ensures SaveEnd(map[], doc, false, WORKS) == map[Main := Whole(doc)]
  {
    SaveIsSwap(map[], doc, WORKS);
    var t := Written(map[], doc);
    var cleared := Remove(t, Backup);
    assert Main !in cleared;
    assert Last(Swap(t, WORKS)) == Remove(Rename(cleared, Temp, Main), Backup);
    assert Remove(Rename(cleared, Temp, Main), Backup) == map[Main := Whole(doc)];
  }

  /** Power is lost, and the gateway boots with one counter in its file. */
  lemma RebootRun(g: Gateway, n: Node, inFile: Number) returns (steps: seq<Step>)
    requires g.mode != Off && g.disk == map[Main := Whole(map[n := inFile])]
    ensures IsRun(g, steps) && AllForward(g, steps)
    ensures var v := Loaded(g.nvs, n, inFile);
            After(g, steps) == g.(ram := map[n := v], nvs := g.nvs[n := v], mode := On, tasks := map[], saver := NoSave)
  {
    var off := Next(g, PowerLoss);
    var booted := Next(off, Boot);
    assert Recover(off.disk, RELIABLE) == off.disk;
    var loaded := Next(booted, LoadOne(n));
    assert loaded.mode.todo == {};
    steps := Cons(loaded, LoadDone, []);
    steps := Cons(booted, LoadOne(n), steps);
    steps := Cons(off, Boot, steps);
    steps := Cons(g, PowerLoss, steps);
  }

  /** Once a counter wraps, load() prefers the larger number from the file: a remote learned at 65535
      and saved sends 65535, wraps, and after a reboot sends 65535 again. */
  lemma WrapRepeatsAfterReboot(n: Node) returns (steps: seq<Step>)
    ensures IsRun(FACTORY, steps) && After(FACTORY, steps).air == [OnAir(n, WRAP - 1), OnAir(n, WRAP - 1)]
  {
    steps := LearnRun(n, WRAP - 1);
    var g := Learned(n, WRAP - 1);
    var more := SaveRun(g, n);
    RunConcat(FACTORY, steps, more);
    steps, g := steps + more, g.(disk := map[Main := Whole(map[n := WRAP - 1])]);
    more := CommandRun(g, 0, n);
    RunConcat(FACTORY, steps, more);
    steps, g := steps + more, After(g, more);
    more := RebootRun(g, n, WRAP - 1);
    RunConcat(FACTORY, steps, more);
    steps, g := steps + more, After(g, more);
    more := CommandRun(g, 0, n);
    RunConcat(FACTORY, steps, more);
    steps := steps + more;
  }

  /** Importing a known node below its stored number makes it send a number again, without any wrap. */
  lemma ReimportRepeats(n: Node, k: nat) returns (steps: seq<Step>)
    requires k + 1 < WRAP
    ensures IsRun(FACTORY, steps) && After(FACTORY, steps).air == [OnAir(n, k), OnAir(n, k)]
  {
    steps := LearnRun(n, k);
    var g := Learned(n, k);
    var more := CommandRun(g, 0, n);
    RunConcat(FACTORY, steps, more);
    steps, g := steps + more, After(g, more);
    var changed := Next(g, Learn(0, n, k));
    more := Cons(changed, StoreNvs(0), []);
    more := Cons(g, Learn(0, n, k), more);
    RunConcat(FACTORY, steps, more);
    steps, g := steps + more, After(g, more);
    more := CommandRun(g, 0, n);
    RunConcat(FACTORY, steps, more);
    steps := steps + more;
  }

  /** A save that reads and completes a counter before the command that advanced it stores it: after a
      power loss the settings file is ahead of NVS. The codes stay fresh; loading raises NVS. */
  lemma OverlapGetsAhead(n: Node, k: nat) returns (steps: seq<Step>)
    requires k + 1 < WRAP
    ensures IsRun(FACTORY, steps) && AllForward(FACTORY, steps)
    ensures After(FACTORY, steps) == Gateway(map[], map[n := k], map[Main := Whole(map[n := k + 1])], Off, map[], NoSave, [])
  {
    steps := LearnRun(n, k);
    var g := Learned(n, k);
    var stamped := Next(g, Command(0, n));
    var changed := Next(stamped, Advance(0));
    assert changed.ram == map[n := k + 1];
    var more := SaveRun(changed, n);
    var saved := After(changed, more);
    var last := Cons(saved, PowerLoss, []);
    RunConcat(changed, more, last);
    more := Cons(stamped, Advance(0), more + last);
    more := Cons(g, Command(0, n), more);
    RunConcat(FACTORY, steps, more);
    steps := steps + more;
  }

  /** Both commands are stamped before either advances the counter. */
  function BothStamped(n: Node, k: Number): Gateway {
    Learned(n, k).(tasks := map[0 := Stamped(n, k), 1 := Stamped(n, k)])
  }

  lemma StampTwice(n: Node, k: Number) returns (steps: seq<Step>)
    ensures IsRun(Learned(n, k), steps) && AllForward(Learned(n, k), steps)
    ensures After(Learned(n, k), steps) == BothStamped(n, k)
  {
    var one := Next(Learned(n, k), Command(0, n));
    steps := Cons(one, Command(1, n), []);
    steps := Cons(Learned(n, k), Command(0, n), steps);
  }

  /** One of them is over. */
  function OneSent(n: Node, k: Number): Gateway
    requires k + 1 < WRAP
  {
    Learned(n, k + 1).(tasks := map[1 := Stamped(n, k)], air := [OnAir(n, k)])
  }

  lemma FirstSends(n: Node, k: Number)
    requires k + 1 < WRAP
    ensures Finished(BothStamped(n, k), 0) == OneSent(n, k)
  {
    assert BothStamped(n, k).tasks - {0} == OneSent(n, k).tasks;
  }

  lemma BothSend(n: Node, k: Number) returns (steps: seq<Step>)
    requires k + 2 < WRAP
    ensures var g := BothStamped(n, k);
            && IsRun(g, steps) && AllForward(g, steps)
            && After(g, steps).air == [OnAir(n, k), OnAir(n, k)]
  {
    FirstSends(n, k);
    hide IsRun, AllForward, AllAboveSent, After;
    steps := FinishRun(BothStamped(n, k), 0);
    var more := FinishRun(OneSent(n, k), 1);
    RunConcat(BothStamped(n, k), steps, more);
    steps := steps + more;
  }

  /** Two commands for one remote that are both stamped before either advances the counter send the same
      number, without wrap, import or power loss. */
  lemma OverlapRepeats(n: Node, k: nat) returns (steps: seq<Step>)
    requires k + 2 < WRAP
    ensures IsRun(FACTORY, steps) && AllForward(FACTORY, steps) && After(FACTORY, steps).air == [OnAir(n, k), OnAir(n, k)]
  {
    hide *;
    var more := StampTwice(n, k);
    var last := BothSend(n, k);
    RunConcat(Learned(n, k), more, last);
    steps := LearnRun(n, k);
    RunConcat(FACTORY, steps, more + last);
    steps := steps + (more + last);
  }

  // ---------------------------------------------------------------- the remotes object

  class Remotes {
    var sequence: Counters
    var nvs: Counters
    ghost var air: seq<OnAir>

    ghost function View(disk: Disk<Counters>, tasks: Tasks, saver: Saver): Gateway
      reads this
    {
      Gateway(sequence, nvs, disk, On, tasks, saver, air)
    }

    constructor ()
      ensures sequence == map[] && nvs == map[] && air == []
    {
      sequence, nvs, air := map[], map[], [];
    }

    /** What every cmd() path shares, when nothing comes between: stamp, advance, store, send. CommandRun
        has it as a run, whatever other tasks are in the middle of. */
    method SendNext(node: Node, ghost disk: Disk<Counters>, ghost tasks: Tasks, ghost saver: Saver)
      returns (stamped: Number)
      requires node in sequence
      modifies this
      ensures stamped == old(sequence)[node]
      ensures View(disk, tasks, saver) == Commanded(old(View(disk, tasks, saver)), node)
    {
      stamped := sequence[node];
      sequence := sequence[node := (sequence[node] + 1) % WRAP];
      nvs := nvs[node := sequence[node]];
      air := air + [OnAir(node, stamped)];
    }

    /** A number 1 to 0x7FFF ahead on the circle is taken over in RAM and NVS, every other one ignored. */
    method SyncSequence(node: Node, nextSequence: Number)
      modifies this
      ensures old(node in sequence && 1 <= (nextSequence - sequence[node]) % 0x1_0000 < 0x8000) ==>
        sequence == old(sequence)[node := nextSequence] && nvs == old(nvs)[node := nextSequence]
      ensures !old(node in sequence && 1 <= (nextSequence - sequence[node]) % 0x1_0000 < 0x8000) ==>
        sequence == old(sequence) && nvs == old(nvs)
      ensures air == old(air)
    {
      if node !in sequence {
        return;
      }
      var delta := (nextSequence - sequence[node]) % WRAP;
      if delta != 0 && delta < 0x8000 {
        sequence := sequence[node := nextSequence];
        nvs := nvs[node := nextSequence];
      }
    }

    /** importLearnedRemote, and the counters of addRemote: the entry is new or overwritten, and NVS
        follows RAM. */
    method ImportLearnedRemote(node: Node, number: Number, ghost id: nat, ghost disk: Disk<Counters>,
                               ghost tasks: Tasks, ghost saver: Saver)
      requires id !in tasks
      modifies this
      ensures IsRun(old(View(disk, tasks, saver)), [Learn(id, node, number), StoreNvs(id)])
      ensures View(disk, tasks, saver) == After(old(View(disk, tasks, saver)), [Learn(id, node, number), StoreNvs(id)])
    {
      ghost var g := View(disk, tasks, saver);
      sequence := sequence[node := number];
      nvs := nvs[node := number];
      ghost var h := Next(g, Learn(id, node, number));
      assert h.tasks - {id} == tasks;
      ghost var r := Cons(h, StoreNvs(id), []);
      r := Cons(g, Learn(id, node, number), r);
      assert r == [Learn(id, node, number), StoreNvs(id)];
    }

    /** The loop of load() over the entries of the settings file. */
    method Load(entries: seq<Node>, doc: Counters)
      requires forall i :: 0 <= i < |entries| ==> entries[i] in doc
      requires forall i, j :: 0 <= i < j < |entries| ==> entries[i] != entries[j]
      modifies this
      ensures forall n :: n in sequence <==> n in entries
      ensures forall n :: n in entries ==> n in nvs && sequence[n] == nvs[n] == Loaded(old(nvs), n, doc[n])
      ensures forall n :: n in entries ==>
        && sequence[n] >= doc[n] && (n in old(nvs) ==> sequence[n] >= old(nvs)[n])
        && (sequence[n] == doc[n] || (n in old(nvs) && sequence[n] == old(nvs)[n]))
      ensures forall n :: n !in entries ==> (n in nvs <==> n in old(nvs)) && (n in nvs ==> nvs[n] == old(nvs)[n])
      ensures air == old(air)
    {
      var loaded: Counters := map[];
      for i := 0 to |entries|
        invariant air == old(air)
        invariant forall n :: n in loaded <==> n in entries[..i]
        invariant forall n :: n in loaded ==> n in nvs && loaded[n] == nvs[n] == Loaded(old(nvs), n, doc[n])
        invariant forall n :: n !in loaded ==> (n in nvs <==> n in old(nvs)) && (n in nvs ==> nvs[n] == old(nvs)[n])
      {
        var n := entries[i];
        assert n !in entries[..i];
        assert entries[..i + 1] == entries[..i] + [n];
        var v := doc[n];
        if n in nvs && nvs[n] > v {
          v := nvs[n];
        }
        nvs := nvs[n := v];
        loaded := loaded[n := v];
      }
      assert entries[..|entries|] == entries;
      sequence := loaded;
    }
  }
}
