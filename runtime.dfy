/**
 * The agent's runtime: the randomness it draws on, the language-model
 * summarizer it may call, and the module-level services (configuration, log
 * buffer, contract bindings) that its operations share. `World` is the part of
 * that state the operations change; `Ctx` is the part they only read.
 */
module AgentRuntime {
  import opened Wrappers
  import opened Config
  import opened Ledger
  import opened AgentLog

  newtype Byte = b: int | 0 <= b < 256

  /** The result of `crypto.randomBytes(32)`. */
  type Bytes32 = s: seq<Byte> | |s| == 32 witness seq(32, _ => 0 as Byte)

  /** The number of equally likely values `Math.random()` is taken to draw from. */
  const RandomScale: nat := 0x20_0000_0000_0000

  /** A result of `Math.random()`, as the numerator `k` of `k / RandomScale`. */
  type Unit = k: nat | k < RandomScale

  /** One farmer as the summarizer is told about it. */
  datatype SummaryRow = SummaryRow(farmer: Address, crop: string, eligible: bool, reason: string)

  /** The chat-completion request for an AI summary. */
  datatype SummaryRequest = SummaryRequest(
    model: string,
    samplingTemperature: real,
    maxTokens: nat,
    region: string,
    droughtAlert: bool,
    floodAlert: bool,
    rainfall: int,
    temperature: int,
    farmers: seq<SummaryRow>)

  /** What the hosted model answers (the message content), or `Err` when the request throws. */
  type Summarizer = SummaryRequest -> Result<string>

  /** The two random sources, each a stream with a count of the values drawn so far. */
  class Entropy {
    const bytes: nat -> Bytes32
    const floats: nat -> Unit
    var bytesUsed: nat
    var floatsUsed: nat

    constructor (bytes: nat -> Bytes32, floats: nat -> Unit)
      ensures this.bytes == bytes && this.floats == floats
      ensures bytesUsed == 0 && floatsUsed == 0
    {
      this.bytes := bytes;
      this.floats := floats;
      bytesUsed := 0;
      floatsUsed := 0;
    }

    method RandomBytes() returns (b: Bytes32)
      modifies this
      ensures b == bytes(old(bytesUsed))
      ensures bytesUsed == old(bytesUsed) + 1 && floatsUsed == old(floatsUsed)
    {
      b := bytes(bytesUsed);
      bytesUsed := bytesUsed + 1;
    }

    method Random() returns (u: Unit)
      modifies this
      ensures u == floats(old(floatsUsed))
      ensures floatsUsed == old(floatsUsed) + 1 && bytesUsed == old(bytesUsed)
    {
      u := floats(floatsUsed);
      floatsUsed := floatsUsed + 1;
    }
  }

  /** Everything the agent's operations change: every log line written, every call made, the random values drawn. */
  datatype World = World(logs: seq<LogEntry>, calls: History, bytesUsed: nat, floatsUsed: nat)

  /** Everything the agent's operations read but do not change; `now` is the clock reading for the operation. */
  datatype Ctx = Ctx(
    config: RuntimeConfig,
    network: string,
    answers: Answers,
    bytes: nat -> Bytes32,
    floats: nat -> Unit,
    summarizer: Summarizer,
    now: nat)

  /** The outcome of an operation and the world after it. */
  datatype Step<T> = Step(out: Outcome<T>, world: World)

  /** The world after writing one log line. */
  function Emit(c: Ctx, w: World, level: Level, text: Message): World {
    w.(logs := w.logs + [LogEntry(c.now, level, text)])
  }

  /** The world after making one call. */
  function Record(w: World, call: Call): World {
    w.(calls := w.calls + [call])
  }

  /** `w1` is `w0` with lines appended, calls appended and possibly more random values drawn. */
  predicate Extends(w0: World, w1: World) {
    w0.logs <= w1.logs && w0.calls <= w1.calls && w0.bytesUsed <= w1.bytesUsed && w0.floatsUsed <= w1.floatsUsed
  }

  /** The lines written from `w0` to `w1`. */
  function NewLogs(w0: World, w1: World): seq<LogEntry>
    requires Extends(w0, w1)
  {
    w1.logs[|w0.logs|..]
  }

  /** The calls made from `w0` to `w1`. */
  function NewCalls(w0: World, w1: World): History
    requires Extends(w0, w1)
  {
    w1.calls[|w0.calls|..]
  }

  lemma ExtendsTrans(w0: World, w1: World, w2: World)
    requires Extends(w0, w1) && Extends(w1, w2)
    ensures Extends(w0, w2)
    ensures NewLogs(w0, w2) == NewLogs(w0, w1) + NewLogs(w1, w2)
    ensures NewCalls(w0, w2) == NewCalls(w0, w1) + NewCalls(w1, w2)
  {
  }

  /** What follows one line: the line, then what was appended after it. */
  lemma EmitThen(c: Ctx, w: World, level: Level, text: Message, r: World)
    requires Extends(Emit(c, w, level, text), r)
    ensures Extends(w, r) && NewCalls(w, r) == NewCalls(Emit(c, w, level, text), r)
    ensures NewLogs(w, r) == [LogEntry(c.now, level, text)] + NewLogs(Emit(c, w, level, text), r)
  {
    var w1 := Emit(c, w, level, text);
    assert r.logs[|w.logs|] == w1.logs[|w.logs|];
  }

  /** One more line after `w1`: the lines since `w0` gain it at the end. */
  lemma EmitAfter(c: Ctx, w0: World, w1: World, level: Level, text: Message)
    requires Extends(w0, w1)
    ensures Extends(w0, Emit(c, w1, level, text))
    ensures NewLogs(w0, Emit(c, w1, level, text)) == NewLogs(w0, w1) + [LogEntry(c.now, level, text)]
    ensures NewCalls(w0, Emit(c, w1, level, text)) == NewCalls(w0, w1)
  {
  }

  /** What follows one call: the call, then what was appended after it. */
  lemma RecordThen(w: World, call: Call, r: World)
    requires Extends(Record(w, call), r)
    ensures Extends(w, r) && NewLogs(w, r) == NewLogs(Record(w, call), r)
    ensures NewCalls(w, r) == [call] + NewCalls(Record(w, call), r)
  {
    var w1 := Record(w, call);
    assert r.calls[|w.calls|] == w1.calls[|w.calls|];
  }

  /** The module-level state of the agent process. */
  class Services {
    const config: RuntimeConfig
    const network: string
    const log: LogBuffer
    const ledger: Gateway
    const entropy: Entropy
    const summarizer: Summarizer

    constructor (config: RuntimeConfig, network: string, answers: Answers,
                 bytes: nat -> Bytes32, floats: nat -> Unit, summarizer: Summarizer)
      ensures Valid()
      ensures this.config == config && this.network == network && this.summarizer == summarizer
      ensures State() == World([], [], 0, 0)
      ensures Context(0) == Ctx(config, network, answers, bytes, floats, summarizer, 0)
    {
      var l := new LogBuffer();
      var g := new Gateway(answers);
      var e := new Entropy(bytes, floats);
      assert l.Valid() && l.history == [];
      this.config := config;
      this.network := network;
      this.summarizer := summarizer;
      log := l;
      ledger := g;
      entropy := e;
    }

    ghost predicate Valid()
      reads log
    {
      log.Valid()
    }

    ghost function State(): World
      reads log, ledger, entropy
    {
      World(log.history, ledger.calls, entropy.bytesUsed, entropy.floatsUsed)
    }

    function Context(now: nat): Ctx {
      Ctx(config, network, ledger.answers, entropy.bytes, entropy.floats, summarizer, now)
    }

    /** `addLog`: one line, stamped with the operation's clock reading. */
    method AddLog(now: nat, level: Level, text: Message)
      requires Valid()
      modifies log
      ensures Valid()
      ensures State() == Emit(Context(now), old(State()), level, text)
    {
      var _ := log.AddLog(now, level, text);
    }
  }
}
