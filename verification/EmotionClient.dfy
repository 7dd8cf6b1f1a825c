/** The line-protocol client of the emotion child process (qc/batch/emotion_worker.py): what `infer` returns is the
    answer to that very request, never a late answer to an earlier one. */
module EmotionClient {
  import opened Common

  datatype Kind = Ready | Outcome | Trouble

  /** An item of the response queue. `answers` says which request the child wrote the message for; 0 is its greeting.
      Lines that are no protocol messages are Noise. */
  datatype Item =
    | Message(kind: Kind, answers: nat, value: string, code: string, retryable: bool)
    | Noise
    | Eof
    | ReaderError

  datatype WorkerError = WorkerError(code: string, retryable: bool)

  /** Everything outside the client. `output(pid, n)`: the n-th item the reader thread puts on the queue of a process;
      `patience(pid, n)`: how many items from position n on arrive before the deadline of a read that starts there;
      `alive`, `accepts`, `exited` answer for a process that was sent so many requests. */
  datatype World = World(
    output: (nat, nat) -> Item, patience: (nat, nat) -> nat, spawns: nat -> bool,
    alive: (nat, nat) -> bool, accepts: (nat, nat) -> bool, exited: (nat, nat) -> bool)

  /** Protocol messages among the first `n` items of a process. */
  function Messages(world: World, pid: nat, n: nat): nat {
    if n == 0 then 0 else Messages(world, pid, n - 1) + if world.output(pid, n - 1).Message? then 1 else 0
  }

  /** The child greets once and then answers each request once, in the order received. */
  ghost predicate Honest(world: World) {
    forall pid: nat, n: nat | world.output(pid, n).Message? :: world.output(pid, n).answers == Messages(world, pid, n)
  }

  datatype Reading = Answered(message: Item) | Ended | Broken | Late

  function Code(given: string, fallback: string): string {
    if given != "" then given else fallback
  }

  /** How a read that brought no message is reported. */
  function Fault(reading: Reading, exited: bool, crash: string, late: string): WorkerError {
    if exited then WorkerError(crash, true)
    else if reading.Ended? || reading.Broken? then WorkerError("EMOTION_WORKER_PROTOCOL", true)
    else WorkerError(late, true)
  }

  predicate OnlyNoise(world: World, pid: nat, from: nat, to: nat) {
    forall n: nat | from <= n < to :: world.output(pid, n).Noise?
  }

  /** The first item from `from` on that is not noise stands at `n`, and arrives in time. */
  ghost predicate Heard(world: World, pid: nat, from: nat, n: nat) {
    from <= n < from + world.patience(pid, from) && OnlyNoise(world, pid, from, n) && !world.output(pid, n).Noise?
  }

  /** A result or an error is heard; after anything else the child is discarded. */
  ghost predicate StaysInUse(world: World, pid: nat, from: nat) {
    exists n :: Heard(world, pid, from, n) && world.output(pid, n).Message?
                && world.output(pid, n).kind in {Outcome, Trouble}
  }

  /** A read ends with the one thing it hears, or hears nothing. */
  ghost predicate ReadTo(world: World, pid: nat, from: nat, to: nat, r: Reading) {
    match r
    case Answered(message) => to > 0 && Heard(world, pid, from, to - 1) && message == world.output(pid, to - 1)
                              && message.Message?
    case Ended => to > 0 && Heard(world, pid, from, to - 1) && world.output(pid, to - 1).Eof?
    case Broken => to > 0 && Heard(world, pid, from, to - 1) && world.output(pid, to - 1).ReaderError?
    case Late => to == from + world.patience(pid, from) && OnlyNoise(world, pid, from, to)
  }

  /** A new child's first word is its greeting; `from` is where its answers begin. */
  ghost predicate Greets(world: World, pid: nat, from: nat) {
    && from > 0 && Heard(world, pid, 0, from - 1)
    && world.output(pid, from - 1).Message? && world.output(pid, from - 1).kind == Ready
  }

  ghost predicate IsError(e: WorkerError, code: string, retryable: bool) {
    e.code == code && e.retryable == retryable
  }

  /** The error of a new child that does not greet, read off what it says instead. */
  ghost predicate StartFails(world: World, pid: nat, e: WorkerError) {
    && (forall n | Heard(world, pid, 0, n) ::
          match world.output(pid, n)
          case Message(kind, _, _, code, retryable) =>
            && (kind == Trouble ==>
                  IsError(e, if code == "" then "EMOTION_WORKER_START_FAILED" else code, retryable))
            && (kind == Outcome ==> IsError(e, if code == "" then "EMOTION_WORKER_PROTOCOL" else code, true))
          case _ =>
            IsError(e, if world.exited(pid, 0) then "EMOTION_WORKER_START_FAILED" else "EMOTION_WORKER_PROTOCOL", true))
    && ((forall n :: !Heard(world, pid, 0, n)) ==>
          IsError(e, if world.exited(pid, 0) then "EMOTION_WORKER_START_FAILED" else "EMOTION_WORKER_START_TIMEOUT",
                  true))
  }

  /** What a child that was sent so many requests replies, read off the first thing it says from `from` on. */
  ghost predicate Replies(world: World, pid: nat, from: nat, sent: nat, r: Result<string, WorkerError>) {
    && (forall n | Heard(world, pid, from, n) ::
          match world.output(pid, n)
          case Message(kind, _, value, code, retryable) =>
            && (kind == Outcome ==> r == Success(value))
            && (kind == Trouble ==>
                  r.Failure? && IsError(r.error, if code == "" then "EMOTION_WORKER_FAILED" else code, retryable))
            && (kind == Ready ==> r.Failure? && IsError(r.error, "EMOTION_WORKER_PROTOCOL", true))
          case _ =>
            r.Failure?
            && IsError(r.error, if world.exited(pid, sent) then "EMOTION_WORKER_CRASHED" else "EMOTION_WORKER_PROTOCOL",
                       true))
    && ((forall n :: !Heard(world, pid, from, n)) ==>
          r.Failure?
          && IsError(r.error, if world.exited(pid, sent) then "EMOTION_WORKER_CRASHED" else "EMOTION_WORKER_TIMEOUT",
                     true))
  }

  lemma HearsOnce(world: World, pid: nat, from: nat, to: nat, r: Reading)
    requires ReadTo(world, pid, from, to, r)
    ensures forall n | Heard(world, pid, from, n) :: !r.Late? && n == to - 1
  {
  }

  lemma Unanswered(world: World, pid: nat, from: nat, to: nat, sent: nat, r: Reading)
    requires ReadTo(world, pid, from, to, r) && !r.Answered?
    ensures Replies(world, pid, from, sent, Failure(Fault(r, world.exited(pid, sent), "EMOTION_WORKER_CRASHED",
                                                          "EMOTION_WORKER_TIMEOUT")))
    ensures from == sent == 0 ==>
              StartFails(world, pid, Fault(r, world.exited(pid, 0), "EMOTION_WORKER_START_FAILED",
                                           "EMOTION_WORKER_START_TIMEOUT"))
    ensures !StaysInUse(world, pid, from)
  {
    HearsOnce(world, pid, from, to, r);
    hide OnlyNoise;
  }

  lemma Replied(world: World, pid: nat, from: nat, to: nat, sent: nat, message: Item, r: Result<string, WorkerError>)
    requires ReadTo(world, pid, from, to, Answered(message))
    requires message.kind == Outcome ==> r == Success(message.value)
    requires message.kind == Trouble ==>
               r == Failure(WorkerError(Code(message.code, "EMOTION_WORKER_FAILED"), message.retryable))
    requires message.kind == Ready ==> r == Failure(WorkerError("EMOTION_WORKER_PROTOCOL", true))
    ensures Replies(world, pid, from, sent, r)
    ensures message.kind in {Outcome, Trouble} <==> StaysInUse(world, pid, from)
  {
    HearsOnce(world, pid, from, to, Answered(message));
    hide OnlyNoise;
    assert Heard(world, pid, from, to - 1);
  }

  lemma AnswersInTurn(world: World, pid: nat, from: nat, to: nat, message: Item)
    requires Honest(world) && ReadTo(world, pid, from, to, Answered(message))
    ensures message.Message? && to > 0 && message == world.output(pid, to - 1)
    ensures message.answers == Messages(world, pid, to) - 1
  {
  }

  lemma Greeted(world: World, pid: nat, to: nat, message: Item, e: WorkerError)
    requires ReadTo(world, pid, 0, to, Answered(message))
    requires message.kind == Trouble ==>
               e == WorkerError(Code(message.code, "EMOTION_WORKER_START_FAILED"), message.retryable)
    requires message.kind == Outcome ==> e == WorkerError(Code(message.code, "EMOTION_WORKER_PROTOCOL"), true)
    ensures if message.kind == Ready then Greets(world, pid, to)
            else StartFails(world, pid, e) && forall from :: !Greets(world, pid, from)
  {
    HearsOnce(world, pid, 0, to, Answered(message));
    hide OnlyNoise;
  }

  class EmotionSubprocessClient {
    const world: World
    /** The current child, and how much of its queue was taken; processes are numbered as they are spawned. */
    var process: Option<nat>
    var taken: nat
    var spawned: nat
    /** The paths each process was asked about, in order. */
    var requests: map<nat, seq<string>>

    /** Between calls the client has read the greeting and one answer for every request of the current child. */
    ghost predicate Valid()
      reads this
    {
      && (forall pid | pid in requests :: pid < spawned)
      && (process.Some? ==>
            process.value in requests && Messages(world, process.value, taken) == 1 + |requests[process.value]|)
    }

    constructor (world: World)
      ensures Valid() && this.world == world && process.None? && spawned == 0
    {
      this.world := world;
      process, taken, spawned, requests := None, 0, 0, map[];
    }

    /** Skips noise up to the first other item that arrives in time and reports that item; it is late only when nothing
        but noise arrives before the deadline. */
    method ReadResponse(pid: nat) returns (r: Reading)
      modifies this`taken
      ensures taken >= old(taken)
      ensures Messages(world, pid, taken) == Messages(world, pid, old(taken)) + if r.Answered? then 1 else 0
      ensures ReadTo(world, pid, old(taken), taken, r)
    {
      var from, read := taken, 0;
      while read < world.patience(pid, from)
        invariant taken == from + read && Messages(world, pid, taken) == Messages(world, pid, from)
        invariant read <= world.patience(pid, from) && OnlyNoise(world, pid, from, taken)
      {
        var item := world.output(pid, taken);
        taken := taken + 1;
        read := read + 1;
        match item
        case Message(_, _, _, _, _) => return Answered(item);
        case Eof => return Ended;
        case ReaderError => return Broken;
        case Noise =>
      }
      r := Late;
    }

    method DiscardProcess()
      modifies this`process, this`taken
      ensures process.None? && taken == 0
    {
      process, taken := None, 0;
    }

    /** The child at hand is alive. */
    ghost predicate Kept()
      requires Valid()
      reads this
    {
      process.Some? && world.alive(process.value, |requests[process.value]|)
    }

    /** Keeps a live child; otherwise spawns one and waits for its greeting. */
    method Start() returns (r: Result<nat, WorkerError>)
      requires Valid()
      modifies this
      ensures Valid() && process == if r.Success? then Some(r.value) else None
      ensures old(Kept()) ==> r == Success(old(process.value))
                              && (process, taken, spawned, requests) == old((process, taken, spawned, requests))
      ensures !old(Kept()) && !world.spawns(old(spawned)) ==>
                && r.Failure? && IsError(r.error, "EMOTION_WORKER_START_FAILED", true)
                && (spawned, requests) == old((spawned, requests))
      ensures !old(Kept()) && world.spawns(old(spawned)) ==>
                && spawned == old(spawned) + 1 && requests == old(requests)[old(spawned) := []]
                && (r.Success? <==> exists from :: Greets(world, old(spawned), from))
                && if r.Success? then r.value == old(spawned) && Greets(world, old(spawned), taken)
                   else StartFails(world, old(spawned), r.error)
    {
      if process.Some? && world.alive(process.value, |requests[process.value]|) {
        return Success(process.value);
      }
      DiscardProcess();
      if !world.spawns(spawned) {
        return Failure(WorkerError("EMOTION_WORKER_START_FAILED", true));
      }
      var pid := spawned;
      spawned := spawned + 1;
      process, requests := Some(pid), requests[pid := []];
      var reading := ReadResponse(pid);
      if !reading.Answered? {
        Unanswered(world, pid, 0, taken, 0, reading);
        DiscardProcess();
        return Failure(Fault(reading, world.exited(pid, 0), "EMOTION_WORKER_START_FAILED",
                             "EMOTION_WORKER_START_TIMEOUT"));
      }
      if reading.message.kind != Ready {
        var trouble := reading.message.kind == Trouble;
        var fallback := if trouble then "EMOTION_WORKER_START_FAILED" else "EMOTION_WORKER_PROTOCOL";
        var error := WorkerError(Code(reading.message.code, fallback),
                                 if trouble then reading.message.retryable else true);
        Greeted(world, pid, taken, reading.message, error);
        DiscardProcess();
        return Failure(error);
      }
      Greeted(world, pid, taken, reading.message, WorkerError("", true));
      r := Success(pid);
    }

    /** Where an inference would begin: at the live child, or at a new one, after its greeting. */
    ghost predicate Begins(pid: nat, from: nat)
      requires Valid()
      reads this
    {
      if Kept() then pid == process.value && from == taken
      else pid == spawned && world.spawns(pid) && Greets(world, pid, from)
    }

    /** What the child was asked before. */
    ghost function Asked(pid: nat): seq<string>
      reads this
    {
      if pid in requests then requests[pid] else []
    }

    /** A value comes from a message the child wrote for this request: the process's last request, for this path.
        Only an error reported by the child itself leaves the process in use after a failure. `at` is the child asked,
        and where its answer is looked for. */
    method Infer(path: string) returns (r: Result<string, WorkerError>, ghost at: Option<(nat, nat)>)
      requires Valid() && Honest(world)
      modifies this
      ensures Valid()
      ensures at.None? ==>
                && (forall pid, from :: !old(Begins(pid, from))) && process.None? && r.Failure?
                && if world.spawns(old(spawned)) then StartFails(world, old(spawned), r.error)
                   else IsError(r.error, "EMOTION_WORKER_START_FAILED", true)
      ensures at.Some? ==> var pid, from := at.value.0, at.value.1;
                           old(Begins(pid, from))
      ensures at.Some? ==>
                var pid, from, sent := at.value.0, at.value.1, |old(Asked(at.value.0))|;
                if !world.accepts(pid, sent) then
                  process.None? && r.Failure? && IsError(r.error, "EMOTION_WORKER_CRASHED", true)
                else
                  && Replies(world, pid, from, sent + 1, r) && Asked(pid) == old(Asked(pid)) + [path]
                  && (process.Some? <==> StaysInUse(world, pid, from))
      ensures process.Some? ==>
                && taken > 0 && world.output(process.value, taken - 1).Message?
                && var reply := world.output(process.value, taken - 1);
                && reply.kind == (if r.Success? then Outcome else Trouble) && (r.Success? ==> reply.value == r.value)
                && reply.answers == |requests[process.value]| && reply.answers > 0
                && requests[process.value][reply.answers - 1] == path
      ensures r.Success? ==> process.Some?
      ensures process.Some? ==> process.value >= old(spawned) || (process == old(process) && taken > old(taken))
      ensures forall pid | pid in old(requests) :: pid in requests && old(requests)[pid] <= requests[pid]
    {
      hide StartFails, Replies, Heard, Greets, ReadTo, Honest, Messages, Fault, Code, StaysInUse;
      var started := Start();
      if started.Failure? {
        return Failure(started.error), None;
      }
      var pid, from := started.value, taken;
      at := Some((pid, from));
      if !world.accepts(pid, |requests[pid]|) {
        DiscardProcess();
        return Failure(WorkerError("EMOTION_WORKER_CRASHED", true)), at;
      }
      requests := requests[pid := requests[pid] + [path]];
      var reading := ReadResponse(pid);
      if !reading.Answered? {
        Unanswered(world, pid, from, taken, |requests[pid]|, reading);
        DiscardProcess();
        return Failure(Fault(reading, world.exited(pid, |requests[pid]|), "EMOTION_WORKER_CRASHED",
                             "EMOTION_WORKER_TIMEOUT")), at;
      }
      ghost var to := taken;
      AnswersInTurn(world, pid, from, to, reading.message);
      match reading.message.kind {
      case Outcome => r := Success(reading.message.value);
      case Ready =>
        DiscardProcess();
        r := Failure(WorkerError("EMOTION_WORKER_PROTOCOL", true));
      case Trouble =>
        r := Failure(WorkerError(Code(reading.message.code, "EMOTION_WORKER_FAILED"), reading.message.retryable));
      }
      Replied(world, pid, from, to, |requests[pid]|, reading.message, r);
    }

    /** Stops the child; whatever it still answers is never read. */
    method Close()
      requires Valid()
      modifies this
      ensures Valid() && process.None? && requests == old(requests) && spawned == old(spawned)
    {
      DiscardProcess();
    }
  }

  /** The n-th protocol message of an honest child answers its n-th request: two messages never answer the same one. */
  lemma AnswersAreDistinct(world: World, pid: nat, m: nat, n: nat)
    requires Honest(world) && m < n
    requires world.output(pid, m).Message? && world.output(pid, n).Message?
    ensures world.output(pid, m).answers < world.output(pid, n).answers
  {
    MessagesGrow(world, pid, m + 1, n);
  }

  lemma {:induction false} MessagesGrow(world: World, pid: nat, m: nat, n: nat)
    requires m <= n
    ensures Messages(world, pid, m) <= Messages(world, pid, n)
  {
    if m < n {
      MessagesGrow(world, pid, m, n - 1);
    }
  }
}
