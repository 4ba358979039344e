/** The broker's exchanges, queues and bindings, and the ordered declares that set them up. */
module Topology {
  import opened Options
  import opened Retry
  import opened Routing
  import opened Config

  const DLX_ARGUMENT: string := "x-dead-letter-exchange"
  const DLX_KEY_ARGUMENT: string := "x-dead-letter-routing-key"

  datatype Binding = Binding(queue: string, key: string, exchange: string)

  /** Exchanges by kind, queues by declare arguments, and the bindings between them. */
  datatype Broker = Broker(
    exchanges: map<string, Kind>, queues: map<string, map<string, string>>, bindings: set<Binding>)

  datatype Op =
    | DeclareExchange(name: string, kind: Kind)
    | DeclareQueue(queue: string, args: map<string, string>)
    | Bind(binding: Binding)

  /**
   * One declare on the broker. Redeclaring with the same attributes changes nothing, with different
   * ones it is refused, and a binding needs both its ends.
   */
  function Perform(b: Broker, op: Op): Option<Broker> {
    match op
    case DeclareExchange(name, kind) =>
      if name in b.exchanges && b.exchanges[name] != kind then None
      else Some(b.(exchanges := b.exchanges[name := kind]))
    case DeclareQueue(queue, args) =>
      if queue in b.queues && b.queues[queue] != args then None
      else Some(b.(queues := b.queues[queue := args]))
    case Bind(bd) =>
      if bd.queue !in b.queues || bd.exchange !in b.exchanges then None
      else Some(b.(bindings := b.bindings + {bd}))
  }

  /** A channel to the broker, through which `left` more requests will get before it breaks. */
  class Channel {
    var broker: Broker
    var left: nat

    constructor (b: Broker, left: nat)
      ensures broker == b && this.left == left
    {
      broker := b;
      this.left := left;
    }

    method Declare(op: Op) returns (ok: bool)
      modifies this
      ensures ok <==> old(left) > 0 && Perform(old(broker), op).Some?
      ensures broker == if ok then Perform(old(broker), op).value else old(broker)
      ensures left == if old(left) > 0 then old(left) - 1 else 0
    {
      if left == 0 {
        return false;
      }
      left := left - 1;
      match Perform(broker, op) {
        case Some(b) => broker := b; ok := true;
        case None => ok := false;
      }
    }
  }

  function DlxName(cfg: Config): string {
    cfg.exchange + cfg.deadLetterExchangeSuffix
  }

  function DlqName(cfg: Config, queue: string): string {
    queue + cfg.deadLetterQueueSuffix
  }

  function QueueArgs(cfg: Config, key: string): map<string, string> {
    if cfg.disableDeadLetter then map[] else map[DLX_ARGUMENT := DlxName(cfg), DLX_KEY_ARGUMENT := key]
  }

  /** Everything a client declares for one queue, the exchange of its connect step first. */
  function ClientOps(cfg: Config, kind: Kind, queue: string, key: string): seq<Op> {
    [DeclareExchange(cfg.exchange, kind)] + QueueOps(cfg, queue, key)
  }

  function QueueOps(cfg: Config, queue: string, key: string): seq<Op> {
    (if cfg.disableDeadLetter then [] else
       [DeclareExchange(DlxName(cfg), Direct),
        DeclareQueue(DlqName(cfg, queue), map[]),
        Bind(Binding(DlqName(cfg, queue), key, DlxName(cfg)))])
    + [DeclareQueue(queue, QueueArgs(cfg, key)), Bind(Binding(queue, key, cfg.exchange))]
  }

  /** The broker after the first refused declare, or after all of them. */
  function RunOps(b: Broker, ops: seq<Op>): (Broker, bool) {
    if ops == [] then (b, true)
    else
      var (before, ok) := RunOps(b, ops[..|ops| - 1]);
      if !ok then (before, false)
      else
        match Perform(before, ops[|ops| - 1])
        case None => (before, false)
        case Some(next) => (next, true)
  }

  lemma RunOpsSnoc(b: Broker, ops: seq<Op>, k: nat)
    requires k < |ops|
    ensures
      var (before, ok) := RunOps(b, ops[..k]);
      RunOps(b, ops[..k + 1]) ==
      if ok && Perform(before, ops[k]).Some? then (Perform(before, ops[k]).value, true) else (before, false)
  {
    assert ops[..k + 1][..k] == ops[..k];
  }

  lemma {:induction false} RunOpsStops(b: Broker, ops: seq<Op>, k: nat)
    requires k <= |ops| && !RunOps(b, ops[..k]).1
    ensures RunOps(b, ops) == RunOps(b, ops[..k])
    decreases |ops|
  {
    if k == |ops| {
      assert ops[..k] == ops;
    } else {
      assert ops[..|ops| - 1][..k] == ops[..k];
      RunOpsStops(b, ops[..|ops| - 1], k);
    }
  }

  /** Declaring over a channel that lets `left` requests through: the broker then, and whether all were made. */
  function Attempted(b: Broker, ops: seq<Op>, left: nat): (Broker, bool) {
    var n := if left < |ops| then left else |ops|;
    (RunOps(b, ops[..n]).0, n == |ops| && RunOps(b, ops[..n]).1)
  }

  lemma StoppedAt(b: Broker, ops: seq<Op>, left: nat, k: nat)
    requires k < |ops| && k <= left && RunOps(b, ops[..k]).1
    requires left == k || !RunOps(b, ops[..k + 1]).1
    ensures Attempted(b, ops, left) == (RunOps(b, ops[..k]).0, false)
  {
    if left > k {
      var n := if left < |ops| then left else |ops|;
      assert ops[..n][..k + 1] == ops[..k + 1];
      RunOpsStops(b, ops[..n], k + 1);
      RunOpsSnoc(b, ops, k);
    }
  }

  /** Declare number `k`, the ones before it made: it is made too, or it ends the attempt. */
  lemma NextDeclare(b: Broker, ops: seq<Op>, left: nat, k: nat, op: Op)
    requires k < |ops| && ops[k] == op && k <= left && RunOps(b, ops[..k]).1
    ensures
      var before := RunOps(b, ops[..k]).0;
      if left > k && Perform(before, op).Some? then
        && RunOps(b, ops[..k + 1]) == (Perform(before, op).value, true)
        && (k + 1 == |ops| ==> Attempted(b, ops, left) == (Perform(before, op).value, true))
      else Attempted(b, ops, left) == (before, false)
  {
    RunOpsSnoc(b, ops, k);
    if left == k || Perform(RunOps(b, ops[..k]).0, op) == None {
      StoppedAt(b, ops, left, k);
    }
  }

  /** Declares the dead-letter side first, then the queue and its binding, stopping at the first refusal or failure. */
  method DeclareQueueTopology(ch: Channel, cfg: Config, queue: string, key: string) returns (ok: bool)
    modifies ch
    ensures (ch.broker, ok) == Attempted(old(ch.broker), QueueOps(cfg, queue, key), old(ch.left))
    ensures ok ==>
              && queue in ch.broker.queues && Binding(queue, key, cfg.exchange) in ch.broker.bindings
              && ch.broker.queues[queue] ==
                 if cfg.disableDeadLetter then map[]
                 else map["x-dead-letter-exchange" := cfg.exchange + cfg.deadLetterExchangeSuffix,
                          "x-dead-letter-routing-key" := key]
    ensures ok && !cfg.disableDeadLetter ==>
              var dlx, dlq := cfg.exchange + cfg.deadLetterExchangeSuffix, queue + cfg.deadLetterQueueSuffix;
              && dlx in ch.broker.exchanges && ch.broker.exchanges[dlx] == Direct
              && dlq in ch.broker.queues && Binding(dlq, key, dlx) in ch.broker.bindings
  {
    ghost var ops := QueueOps(cfg, queue, key);
    ghost var b0, left := ch.broker, ch.left;
    var args: map<string, string> := map[];
    ghost var n := 0;
    if !cfg.disableDeadLetter {
      var dlx := cfg.exchange + cfg.deadLetterExchangeSuffix;
      ok := ch.Declare(DeclareExchange(dlx, Direct));
      NextDeclare(b0, ops, left, 0, DeclareExchange(dlx, Direct));
      if !ok { return; }
      var dlq := queue + cfg.deadLetterQueueSuffix;
      ok := ch.Declare(DeclareQueue(dlq, map[]));
      NextDeclare(b0, ops, left, 1, DeclareQueue(dlq, map[]));
      if !ok { return; }
      ok := ch.Declare(Bind(Binding(dlq, key, dlx)));
      NextDeclare(b0, ops, left, 2, Bind(Binding(dlq, key, dlx)));
      if !ok { return; }
      args := map[DLX_ARGUMENT := dlx, DLX_KEY_ARGUMENT := key];
      n := 3;
    }
    ok := ch.Declare(DeclareQueue(queue, args));
    NextDeclare(b0, ops, left, n, DeclareQueue(queue, args));
    if !ok { return; }
    ok := ch.Declare(Bind(Binding(queue, key, cfg.exchange)));
    NextDeclare(b0, ops, left, n + 1, Bind(Binding(queue, key, cfg.exchange)));
  }

  // ----- confluence of concurrent declaration -----

  /** Everything in `small` is in `big` with the same attributes. */
  ghost predicate Within(small: Broker, big: Broker) {
    && (forall n :: n in small.exchanges ==> n in big.exchanges && big.exchanges[n] == small.exchanges[n])
    && (forall n :: n in small.queues ==> n in big.queues && big.queues[n] == small.queues[n])
    && small.bindings <= big.bindings
  }

  /** The declare has been made: repeating it succeeds and changes nothing. */
  predicate Holds(b: Broker, op: Op) {
    Perform(b, op) == Some(b)
  }

  ghost predicate AllHold(b: Broker, ops: seq<Op>) {
    forall i :: 0 <= i < |ops| ==> Holds(b, ops[i])
  }

  /** The starting broker together with everything the clients declare. */
  function Target(b: Broker, cfg: Config, kind: Kind, queue: string, key: string): Broker {
    var main := Binding(queue, key, cfg.exchange);
    if cfg.disableDeadLetter then
      Broker(b.exchanges[cfg.exchange := kind], b.queues[queue := QueueArgs(cfg, key)], b.bindings + {main})
    else
      Broker(b.exchanges[DlxName(cfg) := Direct][cfg.exchange := kind],
             b.queues[DlqName(cfg, queue) := map[]][queue := QueueArgs(cfg, key)],
             b.bindings + {Binding(DlqName(cfg, queue), key, DlxName(cfg)), main})
  }

  /** What exists already is what the clients are about to declare. */
  ghost predicate Compatible(b: Broker, cfg: Config, kind: Kind, queue: string, key: string) {
    Within(b, Target(b, cfg, kind, queue, key))
  }

  /** The broker has what is declared, with the same attributes. */
  predicate Present(b: Broker, op: Op) {
    match op
    case DeclareExchange(n, k) => n in b.exchanges && b.exchanges[n] == k
    case DeclareQueue(n, a) => n in b.queues && b.queues[n] == a
    case Bind(bd) => bd in b.bindings && bd.queue in b.queues && bd.exchange in b.exchanges
  }

  lemma PresentHolds(b: Broker, op: Op)
    requires Present(b, op)
    ensures Holds(b, op)
  {
    match op {
      case DeclareExchange(n, k) => assert b.exchanges[n := k] == b.exchanges;
      case DeclareQueue(n, a) => assert b.queues[n := a] == b.queues;
      case Bind(bd) => assert b.bindings + {bd} == b.bindings;
    }
  }

  lemma TargetHolds(b: Broker, cfg: Config, kind: Kind, queue: string, key: string)
    requires Normalized(cfg) && Compatible(b, cfg, kind, queue, key)
    ensures AllHold(Target(b, cfg, kind, queue, key), ClientOps(cfg, kind, queue, key))
  {
    SuffixesSeparate(cfg, queue);
    var t, ops := Target(b, cfg, kind, queue, key), ClientOps(cfg, kind, queue, key);
    forall i | 0 <= i < |ops| ensures Holds(t, ops[i]) {
      assert Present(t, ops[i]);
      PresentHolds(t, ops[i]);
    }
  }

  /** A declare that holds keeps holding as the broker grows. */
  lemma HoldsIsStable(small: Broker, big: Broker, op: Op)
    requires Within(small, big) && Holds(small, op)
    ensures Holds(big, op)
  {
    match op {
      case DeclareExchange(n, k) =>
        assert small.exchanges[n := k] == small.exchanges && n in small.exchanges;
        assert big.exchanges[n := k] == big.exchanges;
      case DeclareQueue(n, a) =>
        assert small.queues[n := a] == small.queues && n in small.queues;
        assert big.queues[n := a] == big.queues;
      case Bind(bd) =>
        assert bd in small.bindings + {bd};
        assert big.bindings + {bd} == big.bindings;
    }
  }

  /** A declare below a broker in which it holds succeeds and stays below it, if a binding finds its ends. */
  lemma PerformBelow(b: Broker, t: Broker, op: Op)
    requires Within(b, t) && Holds(t, op)
    requires op.Bind? ==> op.binding.queue in b.queues && op.binding.exchange in b.exchanges
    ensures Perform(b, op).Some?
    ensures Within(b, Perform(b, op).value) && Within(Perform(b, op).value, t) && Holds(Perform(b, op).value, op)
  {
    match op {
      case DeclareExchange(n, k) =>
        assert n in t.exchanges[n := k] && t.exchanges[n] == k;
        assert b.exchanges[n := k][n := k] == b.exchanges[n := k];
      case DeclareQueue(n, a) =>
        assert n in t.queues[n := a] && t.queues[n] == a;
        assert b.queues[n := a][n := a] == b.queues[n := a];
      case Bind(bd) =>
        assert bd in t.bindings + {bd};
        assert b.bindings + {bd} + {bd} == b.bindings + {bd};
    }
  }

  lemma HoldsNames(b: Broker, op: Op)
    requires Holds(b, op)
    ensures op.DeclareExchange? ==> op.name in b.exchanges
    ensures op.DeclareQueue? ==> op.queue in b.queues
    ensures op.Bind? ==> op.binding in b.bindings
  {
    match op {
      case DeclareExchange(n, k) => assert n in b.exchanges[n := k];
      case DeclareQueue(n, a) => assert n in b.queues[n := a];
      case Bind(bd) => assert bd in b.bindings + {bd};
    }
  }

  /** The concurrent clients: client c performs its next declare, `at[c]`, when it is scheduled. */
  datatype Clients = Clients(broker: Broker, at: seq<nat>)

  /** Runs a schedule of clients; `None` as soon as one declare is refused. A finished client does nothing. */
  function Run(ops: seq<Op>, start: Clients, schedule: seq<nat>): Option<Clients> {
    if schedule == [] then Some(start)
    else
      match Run(ops, start, schedule[..|schedule| - 1])
      case None => None
      case Some(s) =>
        var c := schedule[|schedule| - 1];
        if c >= |s.at| || s.at[c] >= |ops| then Some(s)
        else
          match Perform(s.broker, ops[s.at[c]])
          case None => None
          case Some(b) => Some(Clients(b, s.at[c := s.at[c] + 1]))
  }

  /**
   * Clients that declare the exchange start at 0; those with SkipExchangeDeclare start at 1 and need the
   * exchange to be there already.
   */
  ghost predicate CanStart(start: Clients, cfg: Config, kind: Kind, queue: string, key: string) {
    && Compatible(start.broker, cfg, kind, queue, key)
    && (forall c :: 0 <= c < |start.at| ==> start.at[c] <= 1)
    && ((exists c :: 0 <= c < |start.at| && start.at[c] == 1) ==> cfg.exchange in start.broker.exchanges)
  }

  ghost predicate Progress(s: Clients, b0: Broker, t: Broker, ops: seq<Op>) {
    && Within(b0, s.broker) && Within(s.broker, t)
    && (forall c :: 0 <= c < |s.at| ==> s.at[c] <= |ops| && AllHold(s.broker, ops[..s.at[c]]))
  }

  lemma StartsInProgress(start: Clients, cfg: Config, kind: Kind, queue: string, key: string)
    requires Normalized(cfg) && CanStart(start, cfg, kind, queue, key)
    ensures Progress(start, start.broker, Target(start.broker, cfg, kind, queue, key), ClientOps(cfg, kind, queue, key))
  {
    var ops := ClientOps(cfg, kind, queue, key);
    SuffixesSeparate(cfg, queue);
    forall c | 0 <= c < |start.at| ensures AllHold(start.broker, ops[..start.at[c]]) {
      if start.at[c] == 1 {
        assert start.broker.exchanges[cfg.exchange] == kind;
        assert start.broker.exchanges[cfg.exchange := kind] == start.broker.exchanges;
      }
    }
  }

  lemma StepKeepsProgress(s: Clients, b0: Broker, t: Broker, cfg: Config, kind: Kind, queue: string, key: string,
                          c: nat)
    requires Progress(s, b0, t, ClientOps(cfg, kind, queue, key)) && AllHold(t, ClientOps(cfg, kind, queue, key))
    requires c < |s.at| && s.at[c] < |ClientOps(cfg, kind, queue, key)|
    ensures
      var ops := ClientOps(cfg, kind, queue, key);
      var next := Perform(s.broker, ops[s.at[c]]);
      next.Some? && Progress(Clients(next.value, s.at[c := s.at[c] + 1]), b0, t, ops)
  {
    var ops := ClientOps(cfg, kind, queue, key);
    var n := s.at[c];
    forall i | 0 <= i < n ensures Holds(s.broker, ops[i]) {
      assert ops[..n][i] == ops[i];
    }
    if ops[n].Bind? {
      BindFindsItsEnds(s.broker, cfg, kind, queue, key, n);
    }
    PerformBelow(s.broker, t, ops[n]);
    var b := Perform(s.broker, ops[n]).value;
    forall d | 0 <= d < |s.at| ensures AllHold(b, ops[..s.at[d]]) {
      forall i | 0 <= i < s.at[d] ensures Holds(b, ops[..s.at[d]][i]) {
        HoldsIsStable(s.broker, b, ops[..s.at[d]][i]);
      }
    }
    assert ops[..n + 1] == ops[..n] + [ops[n]];
  }

  lemma {:induction false} RunKeepsProgress(start: Clients, cfg: Config, kind: Kind, queue: string, key: string,
                                            schedule: seq<nat>)
    requires Normalized(cfg) && CanStart(start, cfg, kind, queue, key)
    ensures
      var end := Run(ClientOps(cfg, kind, queue, key), start, schedule);
      && end.Some? && |end.value.at| == |start.at|
      && Progress(end.value, start.broker, Target(start.broker, cfg, kind, queue, key),
            ClientOps(cfg, kind, queue, key))
  {
    var ops := ClientOps(cfg, kind, queue, key);
    var t := Target(start.broker, cfg, kind, queue, key);
    if schedule == [] {
      StartsInProgress(start, cfg, kind, queue, key);
    } else {
      RunKeepsProgress(start, cfg, kind, queue, key, schedule[..|schedule| - 1]);
      var s := Run(ops, start, schedule[..|schedule| - 1]).value;
      var c := schedule[|schedule| - 1];
      if c < |s.at| && s.at[c] < |ops| {
        TargetHolds(start.broker, cfg, kind, queue, key);
        StepKeepsProgress(s, start.broker, t, cfg, kind, queue, key, c);
      }
    }
  }

  lemma BindFindsItsEnds(b: Broker, cfg: Config, kind: Kind, queue: string, key: string, n: nat)
    requires n < |ClientOps(cfg, kind, queue, key)| && ClientOps(cfg, kind, queue, key)[n].Bind?
    requires forall i :: 0 <= i < n ==> Holds(b, ClientOps(cfg, kind, queue, key)[i])
    ensures
      var bd := ClientOps(cfg, kind, queue, key)[n].binding;
      bd.queue in b.queues && bd.exchange in b.exchanges
  {
    var ops := ClientOps(cfg, kind, queue, key);
    HoldsNames(b, ops[0]);
    HoldsNames(b, ops[1]);
    if !cfg.disableDeadLetter {
      HoldsNames(b, ops[2]);
      if n > 4 {
        HoldsNames(b, ops[4]);
      }
    }
  }

  lemma SameBroker(b: Broker, start: Broker, cfg: Config, kind: Kind, queue: string, key: string)
    requires Normalized(cfg)
    requires Within(start, b) && Within(b, Target(start, cfg, kind, queue, key))
    requires AllHold(b, ClientOps(cfg, kind, queue, key))
    ensures b == Target(start, cfg, kind, queue, key)
  {
    var ops := ClientOps(cfg, kind, queue, key);
    var t := Target(start, cfg, kind, queue, key);
    forall i | 0 <= i < |ops| ensures ops[i].DeclareExchange? ==> ops[i].name in b.exchanges
      ensures ops[i].DeclareQueue? ==> ops[i].queue in b.queues
      ensures ops[i].Bind? ==> ops[i].binding in b.bindings
    {
      HoldsNames(b, ops[i]);
    }
    var n := |ops|;
    assert ops[0] == DeclareExchange(cfg.exchange, kind);
    assert ops[n - 2] == DeclareQueue(queue, QueueArgs(cfg, key));
    assert ops[n - 1] == Bind(Binding(queue, key, cfg.exchange));
    if !cfg.disableDeadLetter {
      assert ops[1] == DeclareExchange(DlxName(cfg), Direct);
      assert ops[2] == DeclareQueue(DlqName(cfg, queue), map[]);
      assert ops[3] == Bind(Binding(DlqName(cfg, queue), key, DlxName(cfg)));
    }
    assert b.exchanges == t.exchanges;
    assert b.queues == t.queues;
    assert b.bindings == t.bindings;
  }

  /**
   * Any number of publishers and consumers may declare concurrently, in any order: no declare is ever
   * refused, and once they are all through the broker is in the one state that does not depend on the order.
   */
  lemma DeclarationConfluence(start: Clients, cfg: Config, kind: Kind, queue: string, key: string, schedule: seq<nat>)
    requires Normalized(cfg) && CanStart(start, cfg, kind, queue, key)
    ensures
      var end := Run(ClientOps(cfg, kind, queue, key), start, schedule);
      && end.Some? && |end.value.at| == |start.at|
      && (forall c :: 0 <= c < |start.at| && end.value.at[c] == |ClientOps(cfg, kind, queue, key)|
                      ==> end.value.broker == Target(start.broker, cfg, kind, queue, key))
  {
    var ops := ClientOps(cfg, kind, queue, key);
    RunKeepsProgress(start, cfg, kind, queue, key, schedule);
    var s := Run(ops, start, schedule).value;
    forall c | 0 <= c < |start.at| && s.at[c] == |ops| ensures s.broker == Target(start.broker, cfg, kind, queue, key) {
      assert ops[..|ops|] == ops;
      SameBroker(s.broker, start.broker, cfg, kind, queue, key);
    }
  }

  // ----- on which brokers a client's declares succeed -----

  lemma {:induction false} CompatibleSucceeds(b: Broker, cfg: Config, kind: Kind, queue: string, key: string, k: nat)
    requires Normalized(cfg) && Compatible(b, cfg, kind, queue, key) && k <= |ClientOps(cfg, kind, queue, key)|
    ensures
      var ops := ClientOps(cfg, kind, queue, key);
      && RunOps(b, ops[..k]).1
      && Progress(Clients(RunOps(b, ops[..k]).0, [k]), b, Target(b, cfg, kind, queue, key), ops)
  {
    var ops := ClientOps(cfg, kind, queue, key);
    if k == 0 {
      StartsInProgress(Clients(b, [0]), cfg, kind, queue, key);
    } else {
      CompatibleSucceeds(b, cfg, kind, queue, key, k - 1);
      var s := Clients(RunOps(b, ops[..k - 1]).0, [k - 1]);
      TargetHolds(b, cfg, kind, queue, key);
      StepKeepsProgress(s, b, Target(b, cfg, kind, queue, key), cfg, kind, queue, key, 0);
      RunOpsSnoc(b, ops, k - 1);
      assert [k - 1][0 := k] == [k];
    }
  }

  /** What was there when a declare was made does not contradict it. */
  predicate Agrees(b: Broker, op: Op) {
    match op
    case DeclareExchange(n, k) => n in b.exchanges ==> b.exchanges[n] == k
    case DeclareQueue(n, a) => n in b.queues ==> b.queues[n] == a
    case Bind(_) => true
  }

  /** Declares that are all made leave what was there in place and agree with it. */
  lemma {:induction false} SuccessAgrees(b: Broker, ops: seq<Op>)
    requires RunOps(b, ops).1
    ensures Within(b, RunOps(b, ops).0)
    ensures forall i :: 0 <= i < |ops| ==> Agrees(b, ops[i])
  {
    if ops != [] {
      var rest := ops[..|ops| - 1];
      SuccessAgrees(b, rest);
      forall i | 0 <= i < |ops| ensures Agrees(b, ops[i]) {
        if i < |ops| - 1 {
          assert ops[i] == rest[i];
        }
      }
    }
  }

  lemma SuccessIsCompatible(b: Broker, cfg: Config, kind: Kind, queue: string, key: string)
    requires Normalized(cfg) && RunOps(b, ClientOps(cfg, kind, queue, key)).1
    ensures Compatible(b, cfg, kind, queue, key)
  {
    var ops := ClientOps(cfg, kind, queue, key);
    var n := |ops|;
    SuccessAgrees(b, ops);
    assert Agrees(b, ops[0]) && ops[0] == DeclareExchange(cfg.exchange, kind);
    assert Agrees(b, ops[n - 2]) && ops[n - 2] == DeclareQueue(queue, QueueArgs(cfg, key));
    if !cfg.disableDeadLetter {
      assert Agrees(b, ops[1]) && ops[1] == DeclareExchange(DlxName(cfg), Direct);
      assert Agrees(b, ops[2]) && ops[2] == DeclareQueue(DlqName(cfg, queue), map[]);
    }
  }

  /** With a normalized configuration, a client's declares succeed exactly on the compatible brokers. */
  lemma DeclareSucceedsIff(b: Broker, cfg: Config, kind: Kind, queue: string, key: string)
    requires Normalized(cfg)
    ensures RunOps(b, ClientOps(cfg, kind, queue, key)).1 <==> Compatible(b, cfg, kind, queue, key)
  {
    var ops := ClientOps(cfg, kind, queue, key);
    if Compatible(b, cfg, kind, queue, key) {
      CompatibleSucceeds(b, cfg, kind, queue, key, |ops|);
      assert ops[..|ops|] == ops;
    }
    if RunOps(b, ops).1 {
      SuccessIsCompatible(b, cfg, kind, queue, key);
    }
  }

  /** Redeclaring what is there changes nothing. */
  lemma {:induction false} RedeclareIsNoop(b: Broker, ops: seq<Op>)
    requires AllHold(b, ops)
    ensures RunOps(b, ops) == (b, true)
  {
    if ops != [] {
      RedeclareIsNoop(b, ops[..|ops| - 1]);
      assert Holds(b, ops[|ops| - 1]);
    }
  }

  const FRESH: Broker := Broker(map[], map[], {})

  lemma FreshWithoutDeadLetter(cfg: Config, kind: Kind, queue: string, key: string)
    requires cfg.disableDeadLetter
    ensures RunOps(FRESH, ClientOps(cfg, kind, queue, key)).1
  {
    var ops := ClientOps(cfg, kind, queue, key);
    RunOpsSnoc(FRESH, ops, 0);
    RunOpsSnoc(FRESH, ops, 1);
    RunOpsSnoc(FRESH, ops, 2);
    assert ops[..3] == ops;
  }

  /** The dead-letter half is refused exactly when its exchange collides with a main one of another kind. */
  lemma FreshDeadLetterHalf(cfg: Config, kind: Kind, queue: string, key: string)
    requires !cfg.disableDeadLetter
    ensures
      var (b, ok) := RunOps(FRESH, ClientOps(cfg, kind, queue, key)[..4]);
      && (ok <==> cfg.deadLetterExchangeSuffix != "" || kind == Direct)
      && (ok ==> b.queues == map[DlqName(cfg, queue) := map[]] && cfg.exchange in b.exchanges)
  {
    var ops := ClientOps(cfg, kind, queue, key);
    FreshExchanges(cfg, kind, queue, key);
    if RunOps(FRESH, ops[..2]).1 {
      RunOpsSnoc(FRESH, ops, 2);
      RunOpsSnoc(FRESH, ops, 3);
    } else {
      assert ops[..4][..2] == ops[..2];
      RunOpsStops(FRESH, ops[..4], 2);
    }
  }

  lemma FreshExchanges(cfg: Config, kind: Kind, queue: string, key: string)
    requires !cfg.disableDeadLetter
    ensures
      var (b, ok) := RunOps(FRESH, ClientOps(cfg, kind, queue, key)[..2]);
      && (ok <==> cfg.deadLetterExchangeSuffix != "" || kind == Direct)
      && (ok ==> b == Broker(map[cfg.exchange := kind][DlxName(cfg) := Direct], map[], {}))
  {
    var ops := ClientOps(cfg, kind, queue, key);
    SuffixesSeparate(cfg, queue);
    RunOpsSnoc(FRESH, ops, 0);
    assert FRESH.exchanges[cfg.exchange := kind] == map[cfg.exchange := kind];
    RunOpsSnoc(FRESH, ops, 1);
  }

  /** On a fresh broker the declares succeed exactly when the suffixes keep the names apart. */
  lemma FreshDeclareSucceedsIff(cfg: Config, kind: Kind, queue: string, key: string)
    ensures RunOps(FRESH, ClientOps(cfg, kind, queue, key)).1
            <==> cfg.disableDeadLetter
                 || (cfg.deadLetterQueueSuffix != "" && (cfg.deadLetterExchangeSuffix != "" || kind == Direct))
  {
    if cfg.disableDeadLetter {
      FreshWithoutDeadLetter(cfg, kind, queue, key);
    } else {
      var ops := ClientOps(cfg, kind, queue, key);
      SuffixesSeparate(cfg, queue);
      FreshDeadLetterHalf(cfg, kind, queue, key);
      if RunOps(FRESH, ops[..4]).1 {
        assert DLX_ARGUMENT in QueueArgs(cfg, key);
        RunOpsSnoc(FRESH, ops, 4);
        if RunOps(FRESH, ops[..5]).1 {
          RunOpsSnoc(FRESH, ops, 5);
          assert ops[..6] == ops;
        } else {
          RunOpsStops(FRESH, ops, 5);
        }
      } else {
        RunOpsStops(FRESH, ops, 4);
      }
    }
  }

  lemma SuffixesSeparate(cfg: Config, queue: string)
    ensures cfg.deadLetterQueueSuffix == "" <==> DlqName(cfg, queue) == queue
    ensures cfg.deadLetterExchangeSuffix == "" <==> DlxName(cfg) == cfg.exchange
  {
    assert |DlqName(cfg, queue)| == |queue| + |cfg.deadLetterQueueSuffix|;
    assert |DlxName(cfg)| == |cfg.exchange| + |cfg.deadLetterExchangeSuffix|;
    assert cfg.deadLetterQueueSuffix == "" ==> DlqName(cfg, queue) == queue;
    assert cfg.deadLetterExchangeSuffix == "" ==> DlxName(cfg) == cfg.exchange;
  }

  // ----- routing over the declared topology -----

  /** The queues a message published to an exchange under a key is put on. */
  function RouteTo(b: Broker, exchange: string, key: string): set<string> {
    if exchange !in b.exchanges then {}
    else set bd | bd in b.bindings && bd.exchange == exchange && Accepts(b.exchanges[exchange], bd.key, key) :: bd.queue
  }

  /** Where a message rejected by a queue goes: its dead-letter exchange, under its dead-letter key if it has one. */
  function DeadLetterTargets(b: Broker, queue: string, messageKey: string): set<string> {
    if queue !in b.queues || DLX_ARGUMENT !in b.queues[queue] then {}
    else
      var args := b.queues[queue];
      RouteTo(b, args[DLX_ARGUMENT], if DLX_KEY_ARGUMENT in args then args[DLX_KEY_ARGUMENT] else messageKey)
  }

  /** Some client has declared the topology of this queue on the broker. */
  ghost predicate Declared(b: Broker, cfg: Config, kind: Kind, queue: string, key: string) {
    AllHold(b, ClientOps(cfg, kind, queue, key))
  }

  lemma DeclaredFacts(b: Broker, cfg: Config, kind: Kind, queue: string, key: string)
    requires Declared(b, cfg, kind, queue, key)
    ensures cfg.exchange in b.exchanges && b.exchanges[cfg.exchange] == kind
    ensures Binding(queue, key, cfg.exchange) in b.bindings
    ensures queue in b.queues && b.queues[queue] == QueueArgs(cfg, key)
    ensures !cfg.disableDeadLetter ==>
              && DlxName(cfg) in b.exchanges && b.exchanges[DlxName(cfg)] == Direct
              && Binding(DlqName(cfg, queue), key, DlxName(cfg)) in b.bindings
  {
    var ops := ClientOps(cfg, kind, queue, key);
    var n := |ops|;
    HoldsNames(b, ops[0]);
    assert ops[n - 2] == DeclareQueue(queue, QueueArgs(cfg, key)) && Holds(b, ops[n - 2]);
    HoldsNames(b, ops[n - 2]);
    assert ops[n - 1] == Bind(Binding(queue, key, cfg.exchange)) && Holds(b, ops[n - 1]);
    HoldsNames(b, ops[n - 1]);
    if !cfg.disableDeadLetter {
      assert ops[1] == DeclareExchange(DlxName(cfg), Direct) && Holds(b, ops[1]);
      HoldsNames(b, ops[1]);
      assert ops[3] == Bind(Binding(DlqName(cfg, queue), key, DlxName(cfg))) && Holds(b, ops[3]);
      HoldsNames(b, ops[3]);
    }
  }

  /**
   * Whatever key a message of the exchange reached the queue under, and through whatever binding, the key
   * its retry is published under reaches the queue again.
   */
  lemma RetryReachesQueue(b: Broker, cfg: Config, kind: Kind, queue: string, key: string, messageKey: string)
    requires Declared(b, cfg, kind, queue, key)
    requires queue in RouteTo(b, cfg.exchange, messageKey)
    ensures queue in RouteTo(b, cfg.exchange, RetryKey(messageKey, key))
  {
    DeclaredFacts(b, cfg, kind, queue, key);
    if messageKey == "" {
      PatternMatchesItself(Words(key));
      assert Accepts(kind, key, key);
    }
  }

  /**
   * A message the queue rejects goes to exactly the queues bound to the dead-letter exchange under the
   * literal binding key, the queue's own dead-letter queue among them, whatever key it carried and
   * whatever the kind of the main exchange.
   */
  lemma DeadLetterReachesDlq(b: Broker, cfg: Config, kind: Kind, queue: string, key: string, messageKey: string)
    requires Declared(b, cfg, kind, queue, key)
    requires !cfg.disableDeadLetter
    ensures queue + cfg.deadLetterQueueSuffix in DeadLetterTargets(b, queue, messageKey)
    ensures forall q :: q in DeadLetterTargets(b, queue, messageKey)
                        <==> Binding(q, key, cfg.exchange + cfg.deadLetterExchangeSuffix) in b.bindings
  {
    DeclaredFacts(b, cfg, kind, queue, key);
    assert DLX_ARGUMENT != DLX_KEY_ARGUMENT by { assert |DLX_ARGUMENT| != |DLX_KEY_ARGUMENT|; }
    forall q | Binding(q, key, DlxName(cfg)) in b.bindings ensures q in DeadLetterTargets(b, queue, messageKey) {
      var bd := Binding(q, key, DlxName(cfg));
      assert bd in b.bindings && Accepts(Direct, bd.key, key);
    }
  }

  /**
   * The dead-letter side is declared first: from the moment the declares have created the queue, even if they
   * stop there, what it rejects reaches its dead-letter queue.
   */
  lemma DeadLetterSideFirst(b: Broker, cfg: Config, kind: Kind, queue: string, key: string, k: nat, messageKey: string)
    requires Normalized(cfg) && !cfg.disableDeadLetter && queue !in b.queues
    requires k <= |ClientOps(cfg, kind, queue, key)| && RunOps(b, ClientOps(cfg, kind, queue, key)[..k]).1
    requires queue in RunOps(b, ClientOps(cfg, kind, queue, key)[..k]).0.queues
    ensures
      var now := RunOps(b, ClientOps(cfg, kind, queue, key)[..k]).0;
      queue + cfg.deadLetterQueueSuffix in DeadLetterTargets(now, queue, messageKey)
  {
    var ops := ClientOps(cfg, kind, queue, key);
    NoQueueBefore(b, cfg, kind, queue, key, if k < 4 then k else 4);
    var now := RunOps(b, ops[..k]).0;
    MadeDeclaresHold(b, ops[..k]);
    assert ops[..k][1] == DeclareExchange(DlxName(cfg), Direct) && Holds(now, ops[..k][1]);
    assert ops[..k][3] == Bind(Binding(DlqName(cfg, queue), key, DlxName(cfg))) && Holds(now, ops[..k][3]);
    assert ops[..k][4] == DeclareQueue(queue, QueueArgs(cfg, key)) && Holds(now, ops[..k][4]);
    DeadLettersGoTo(now, cfg, queue, key, messageKey);
  }

  lemma DeadLettersGoTo(b: Broker, cfg: Config, queue: string, key: string, messageKey: string)
    requires !cfg.disableDeadLetter
    requires Holds(b, DeclareExchange(DlxName(cfg), Direct)) && Holds(b, DeclareQueue(queue, QueueArgs(cfg, key)))
    requires Holds(b, Bind(Binding(DlqName(cfg, queue), key, DlxName(cfg))))
    ensures queue + cfg.deadLetterQueueSuffix in DeadLetterTargets(b, queue, messageKey)
  {
    HoldsNames(b, DeclareExchange(DlxName(cfg), Direct));
    HoldsNames(b, DeclareQueue(queue, QueueArgs(cfg, key)));
    HoldsNames(b, Bind(Binding(DlqName(cfg, queue), key, DlxName(cfg))));
    assert DLX_ARGUMENT != DLX_KEY_ARGUMENT by { assert |DLX_ARGUMENT| != |DLX_KEY_ARGUMENT|; }
    var bd := Binding(DlqName(cfg, queue), key, DlxName(cfg));
    assert bd in b.bindings && Accepts(Direct, bd.key, key);
  }

  lemma {:induction false} NoQueueBefore(b: Broker, cfg: Config, kind: Kind, queue: string, key: string, k: nat)
    requires Normalized(cfg) && !cfg.disableDeadLetter && queue !in b.queues && k <= 4
    ensures queue !in RunOps(b, ClientOps(cfg, kind, queue, key)[..k]).0.queues
  {
    var ops := ClientOps(cfg, kind, queue, key);
    if k > 0 {
      SuffixesSeparate(cfg, queue);
      NoQueueBefore(b, cfg, kind, queue, key, k - 1);
      RunOpsSnoc(b, ops, k - 1);
    }
  }

  lemma {:induction false} MadeDeclaresHold(b: Broker, ops: seq<Op>)
    requires RunOps(b, ops).1
    ensures AllHold(RunOps(b, ops).0, ops)
  {
    if ops != [] {
      var n := |ops| - 1;
      var before := RunOps(b, ops[..n]).0;
      MadeDeclaresHold(b, ops[..n]);
      StepHolds(before, ops[n]);
      forall i | 0 <= i < |ops| ensures Holds(RunOps(b, ops).0, ops[i]) {
        if i < n {
          assert Holds(before, ops[..n][i]);
          HoldsIsStable(before, RunOps(b, ops).0, ops[i]);
        }
      }
    }
  }

  lemma StepHolds(b: Broker, op: Op)
    requires Perform(b, op).Some?
    ensures Within(b, Perform(b, op).value) && Holds(Perform(b, op).value, op)
  {
    var n := Perform(b, op).value;
    assert Present(n, op);
    PresentHolds(n, op);
  }

  /** Without a dead-letter exchange a rejected message goes nowhere: the broker drops it. */
  lemma NoDeadLetterDrops(b: Broker, cfg: Config, kind: Kind, queue: string, key: string, messageKey: string)
    requires Declared(b, cfg, kind, queue, key)
    requires cfg.disableDeadLetter
    ensures DeadLetterTargets(b, queue, messageKey) == {}
  {
    DeclaredFacts(b, cfg, kind, queue, key);
  }
}
