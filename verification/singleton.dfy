/**
 The process-wide client instance (`Client.__new__` / `_setup` and the
 `config` property), as a small state machine over the one shared instance.
 Both clients follow the same protocol.
 */
module Singleton {
  import opened Options
  import opened Errors
  import opened Configuration

  /** The state `_setup` gives the instance: a configuration and the status table. */
  datatype Client = Client(config: Config, errorMap: map<int, ErrorKind>)

  function Setup(): (r: Client)
    ensures r.config == Default()
    ensures r.errorMap.Keys == {400, 401, 403, 404, 500, 999}
    ensures forall s :: s in r.errorMap ==> Classify(s) == Raises(r.errorMap[s])
  {
    Client(Default(), ErrorMap())
  }

  /** The class-level slot holding the instance, and how many times `_setup` has run. */
  datatype Process = Process(instance: Option<Client>, setups: nat)

  const Fresh: Process := Process(None, 0)

  /** `Client()`: the first call creates and sets up the instance; later calls return it untouched. */
  function New(p: Process): (r: (Process, Client))
    ensures r.0.instance == Some(r.1)
    ensures p.instance.Some? ==> r.0 == p && r.1 == p.instance.value
    ensures p.instance.None? ==> r.1 == Setup() && r.0.setups == p.setups + 1
  {
    match p.instance
    case Some(client) => (p, client)
    case None => (Process(Some(Setup()), p.setups + 1), Setup())
  }

  /** `Client().config = cfg`: the whole record is replaced; the status table is kept. */
  function SetConfig(p: Process, cfg: Config): (r: Process)
    ensures r.instance.Some? && r.instance.value.config == cfg
    ensures r.instance.value.errorMap == New(p).1.errorMap
    ensures r.setups == New(p).0.setups
  {
    var (q, client) := New(p);
    q.(instance := Some(client.(config := cfg)))
  }

  /** `Client().config`. */
  function GetConfig(p: Process): (r: (Process, Config))
    ensures r.0 == New(p).0 && r.1 == New(p).1.config
  {
    var (q, client) := New(p);
    (q, client.config)
  }

  /**
   What a program does with the singleton: construct it, assign its
   configuration, or write fields of the record it holds in place
   (`Client().config.hostname = ...`, `Client().config.readFile()`, or a write
   through any other reference to that same record, such as the caller's
   variable after an assignment).
   */
  datatype Op = Construct | Assign(cfg: Config) | Edit(change: Config -> Config)

  function Apply(p: Process, op: Op): Process {
    match op
    case Construct => New(p).0
    case Assign(cfg) => SetConfig(p, cfg)
    case Edit(change) => SetConfig(p, change(GetConfig(p).1))
  }

  /** The process state after the operations, oldest first. */
  function Run(p: Process, ops: seq<Op>): Process
    decreases |ops|
  {
    if |ops| == 0 then p else Apply(Run(p, ops[..|ops| - 1]), ops[|ops| - 1])
  }

  /** The configuration most recently assigned, if any. */
  function LastAssigned(ops: seq<Op>): Option<Config>
    decreases |ops|
  {
    if |ops| == 0 then None
    else if ops[|ops| - 1].Assign? then Some(ops[|ops| - 1].cfg)
    else LastAssigned(ops[..|ops| - 1])
  }

  /** The record the program has built: the last one assigned (the default before any), with the later in-place writes applied in order. */
  function Configured(ops: seq<Op>): Config
    decreases |ops|
  {
    if |ops| == 0 then Default()
    else
      match ops[|ops| - 1]
      case Construct => Configured(ops[..|ops| - 1])
      case Assign(cfg) => cfg
      case Edit(change) => change(Configured(ops[..|ops| - 1]))
  }

  /** `_setup` runs on the first use of the singleton and never again. */
  lemma {:induction false} SetupRunsOnce(ops: seq<Op>)
    ensures Run(Fresh, ops).setups == (if |ops| == 0 then 0 else 1)
    ensures |ops| > 0 ==> Run(Fresh, ops).instance.Some?
    decreases |ops|
  {
    if |ops| > 0 {
      SetupRunsOnce(ops[..|ops| - 1]);
    }
  }

  /** Every use sees one instance: its configuration is the record the program has built, and its status table is the one `_setup` built. */
  lemma {:induction false} ConfigIsConfigured(ops: seq<Op>)
    requires |ops| > 0
    ensures Run(Fresh, ops).instance.Some?
    ensures Run(Fresh, ops).instance.value.config == Configured(ops)
    ensures Run(Fresh, ops).instance.value.errorMap == ErrorMap()
    decreases |ops|
  {
    if |ops| > 1 {
      ConfigIsConfigured(ops[..|ops| - 1]);
    }
  }

  /** Without in-place writes, the configuration is the record last assigned (the default before any). */
  lemma {:induction false} ConfigIsLastAssigned(ops: seq<Op>)
    requires |ops| > 0
    requires forall i :: 0 <= i < |ops| ==> !ops[i].Edit?
    ensures Run(Fresh, ops).instance.Some?
    ensures Run(Fresh, ops).instance.value.config ==
      (match LastAssigned(ops) case Some(cfg) => cfg case None => Default())
    decreases |ops|
  {
    ConfigIsConfigured(ops);
    LastAssignedIsConfigured(ops);
  }

  lemma {:induction false} LastAssignedIsConfigured(ops: seq<Op>)
    requires forall i :: 0 <= i < |ops| ==> !ops[i].Edit?
    ensures Configured(ops) == (match LastAssigned(ops) case Some(cfg) => cfg case None => Default())
    decreases |ops|
  {
    if |ops| > 0 {
      var prefix := ops[..|ops| - 1];
      assert forall i :: 0 <= i < |prefix| ==> prefix[i] == ops[i];
      LastAssignedIsConfigured(prefix);
    }
  }

  /** Writing one field of the configuration record. */
  function WithHostname(hostname: string): Config -> Config {
    (cfg: Config) => cfg.(hostname := hostname)
  }

  function WithRootCa(rootCa: string): Config -> Config {
    (cfg: Config) => cfg.(rootCa := rootCa)
  }

  function WithToken(token: string): Config -> Config {
    (cfg: Config) => cfg.(xApiToken := token)
  }

  /** Constructing the client and writing three fields in place leaves those fields set and every other at its default. */
  lemma FieldWritesAfterConstruction(hostname: string, rootCa: string, token: string)
    ensures var ops := [Construct, Edit(WithHostname(hostname)), Edit(WithRootCa(rootCa)), Edit(WithToken(token))];
      Run(Fresh, ops).instance.Some? &&
      Run(Fresh, ops).instance.value.config == Default().(hostname := hostname, rootCa := rootCa, xApiToken := token)
  {
    var ops := [Construct, Edit(WithHostname(hostname)), Edit(WithRootCa(rootCa)), Edit(WithToken(token))];
    ConfigIsConfigured(ops);
    assert Configured(ops[..1]) == Default() by { assert ops[..1][..0] == []; }
    assert Configured(ops[..2]) == Default().(hostname := hostname) by { assert ops[..2][..1] == ops[..1]; }
    assert Configured(ops[..3]) == Default().(hostname := hostname, rootCa := rootCa) by { assert ops[..3][..2] == ops[..2]; }
    assert ops[..|ops| - 1] == ops[..3];
  }
}
