/** The consumer loop of internal/event/consumer.go.

    The broker is foreign: a `Reader` serves a finite script of fetch
    outcomes (a message, or an error together with whether the context was
    cancelled when the loop looked), records every commit, and an oracle
    decides each commit's outcome. The loop is specified by `Trace`, the
    sequence of fetch, process, commit, backoff and close actions a script
    produces, and by `Processor.Run` over the messages it fetched. */
module Consumer {
  import opened Wrappers
  import opened Events
  import opened Processor

  datatype KafkaMessage = KafkaMessage(topic: string, partition: int, offset: int, key: Bytes, value: Bytes)

  /** One FetchMessage outcome. `cancelled` is whether ctx.Err() was set when
      the loop checked it after the error. */
  datatype FetchResult = Fetched(msg: KafkaMessage) | FetchFailed(cause: string, cancelled: bool)

  /** An externally visible step of the loop. */
  datatype Action = Fetch | Process(topic: string, value: Bytes) | Commit(msg: KafkaMessage) | Backoff | Close

  const DefaultTopics := ["order.created", "order.cancelled", "payment.success", "payment.failed"]

  datatype ReaderConfig = ReaderConfig(brokers: seq<string>, groupTopics: seq<string>, groupId: string,
                                       minBytes: nat, maxBytes: nat, maxWaitMillis: nat)

  const MinBytes: nat := 10000
  const MaxBytes: nat := 10000000
  const MaxWaitMillis: nat := 1000

  /** The keys of `topics` in `keys` that map to `v`. */
  ghost function KeysFor(topics: map<string, string>, keys: set<string>, v: string): set<string> {
    set k | k in keys && k in topics && topics[k] == v
  }

  /** `list` holds the values of `topics`, one per entry, in some order. */
  ghost predicate ListsValues(list: seq<string>, topics: map<string, string>) {
    && |list| == |topics|
    && forall v :: multiset(list)[v] == |KeysFor(topics, topics.Keys, v)|
  }

  lemma KeysForStep(topics: map<string, string>, done: set<string>, k: string, v: string)
    requires k in topics && k !in done
    ensures |KeysFor(topics, done + {k}, v)| == |KeysFor(topics, done, v)| + if topics[k] == v then 1 else 0
  {
    if topics[k] == v {
      assert KeysFor(topics, done + {k}, v) == KeysFor(topics, done, v) + {k};
    } else {
      assert KeysFor(topics, done + {k}, v) == KeysFor(topics, done, v);
    }
  }

  /** The subscription list Start builds: the values of the topic map in map
      iteration order (which Go leaves unspecified), or the four default
      names when the map is empty. */
  method SubscriptionTopics(topics: map<string, string>) returns (list: seq<string>)
    ensures |topics| > 0 ==> ListsValues(list, topics)
    ensures |topics| == 0 ==> list == DefaultTopics
  {
    list := [];
    var remaining := topics.Keys;
    while remaining != {}
      invariant remaining <= topics.Keys
      invariant |list| + |remaining| == |topics.Keys|
      invariant forall v :: multiset(list)[v] == |KeysFor(topics, topics.Keys - remaining, v)|
      decreases remaining
    {
      var k :| k in remaining;
      ghost var done := topics.Keys - remaining;
      forall v ensures multiset(list + [topics[k]])[v] == |KeysFor(topics, done + {k}, v)| {
        KeysForStep(topics, done, k, v);
      }
      assert topics.Keys - (remaining - {k}) == done + {k};
      list := list + [topics[k]];
      remaining := remaining - {k};
    }
    assert topics.Keys - remaining == topics.Keys;
    assert |topics.Keys| == |topics|;
    if |list| == 0 {
      list := DefaultTopics;
    }
  }

  /** Whether this outcome ends the loop: an error with the context cancelled. */
  predicate Stops(r: FetchResult) {
    r.FetchFailed? && r.cancelled
  }

  /** Whether some outcome of the script ends the loop. */
  predicate Stopped(script: seq<FetchResult>)
    decreases |script|
  {
    script != [] && (Stops(script[0]) || Stopped(script[1..]))
  }

  /** The actions of one turn of the loop. */
  function Turn(r: FetchResult): seq<Action> {
    match r
    case Fetched(m) => [Fetch, Process(m.topic, m.value), Commit(m)]
    case FetchFailed(_, cancelled) => if cancelled then [Fetch, Close] else [Fetch, Backoff]
  }

  /** The actions the loop performs on a script: one turn per outcome, up to
      and including the first outcome that stops it. */
  function Trace(script: seq<FetchResult>): (t: seq<Action>)
    ensures script != [] ==> |t| >= 2 && t[0] == Fetch
    decreases |script|
  {
    if script == [] then []
    else Turn(script[0]) + if Stops(script[0]) then [] else Trace(script[1..])
  }

  /** The trace ends with Close exactly when a fetch failed after cancellation. */
  lemma {:induction false} TraceEndsInClose(script: seq<FetchResult>)
    ensures Stopped(script) <==> Trace(script) != [] && Trace(script)[|Trace(script)| - 1] == Close
    decreases |script|
  {
    if script != [] {
      var turn := Turn(script[0]);
      if !Stops(script[0]) {
        TraceEndsInClose(script[1..]);
        var rest := Trace(script[1..]);
        assert Trace(script) == turn + rest;
        if rest == [] {
          assert Trace(script)[|Trace(script)| - 1] == turn[|turn| - 1];
        } else {
          assert Trace(script)[|Trace(script)| - 1] == rest[|rest| - 1];
        }
      }
    }
  }

  /** The messages the loop fetches on a script, in fetch order. */
  function FetchedMessages(script: seq<FetchResult>): seq<KafkaMessage>
    decreases |script|
  {
    if script == [] then []
    else if Stops(script[0]) then []
    else (if script[0].Fetched? then [script[0].msg] else []) + FetchedMessages(script[1..])
  }

  /** The (topic, payload) pairs handed to ProcessEvent for these messages. */
  function Deliveries(msgs: seq<KafkaMessage>): (ds: seq<(string, Bytes)>)
    ensures |ds| == |msgs|
    ensures forall i | 0 <= i < |msgs| :: ds[i] == (msgs[i].topic, msgs[i].value)
    decreases |msgs|
  {
    if msgs == [] then [] else [(msgs[0].topic, msgs[0].value)] + Deliveries(msgs[1..])
  }

  /** The messages committed along a trace. */
  function Commits(t: seq<Action>): seq<KafkaMessage>
    decreases |t|
  {
    if t == [] then [] else (if t[0].Commit? then [t[0].msg] else []) + Commits(t[1..])
  }

  /** The deliveries processed along a trace. */
  function Processed(t: seq<Action>): seq<(string, Bytes)>
    decreases |t|
  {
    if t == [] then [] else (if t[0].Process? then [(t[0].topic, t[0].value)] else []) + Processed(t[1..])
  }

  /** The number of Close actions along a trace. */
  function Closes(t: seq<Action>): nat
    decreases |t|
  {
    if t == [] then 0 else (if t[0].Close? then 1 else 0) + Closes(t[1..])
  }

  lemma {:induction false} CommitsAppend(a: seq<Action>, b: seq<Action>)
    ensures Commits(a + b) == Commits(a) + Commits(b)
    ensures Processed(a + b) == Processed(a) + Processed(b)
    ensures Closes(a + b) == Closes(a) + Closes(b)
    decreases |a|
  {
    if a != [] {
      CommitsAppend(a[1..], b);
      assert (a + b)[1..] == a[1..] + b;
    } else {
      assert a + b == b;
    }
  }

  lemma DeliveriesAppend(a: seq<KafkaMessage>, b: seq<KafkaMessage>)
    ensures Deliveries(a + b) == Deliveries(a) + Deliveries(b)
  {
  }

  lemma OneAction(a: Action)
    ensures Commits([a]) == if a.Commit? then [a.msg] else []
    ensures Processed([a]) == if a.Process? then [(a.topic, a.value)] else []
    ensures Closes([a]) == if a.Close? then 1 else 0
  {
    assert [a][1..] == [];
  }

  lemma TurnCounts(r: FetchResult)
    ensures Commits(Turn(r)) == if r.Fetched? then [r.msg] else []
    ensures Processed(Turn(r)) == if r.Fetched? then [(r.msg.topic, r.msg.value)] else []
    ensures Closes(Turn(r)) == if Stops(r) then 1 else 0
  {
    var t := Turn(r);
    OneAction(t[0]);
    OneAction(t[1]);
    assert t[..1] == [t[0]];
    if r.Fetched? {
      OneAction(t[2]);
      assert t == [t[0]] + ([t[1]] + [t[2]]);
      CommitsAppend([t[1]], [t[2]]);
      CommitsAppend([t[0]], [t[1]] + [t[2]]);
    } else {
      assert t == [t[0]] + [t[1]];
      CommitsAppend([t[0]], [t[1]]);
    }
  }

  /** Every fetched message is processed exactly once and committed exactly
      once, in fetch order, whatever processing returned; the reader is closed
      exactly when a fetch failed after cancellation, and then only once. */
  lemma {:induction false} EachFetchedMessageProcessedAndCommittedOnce(script: seq<FetchResult>)
    ensures Commits(Trace(script)) == FetchedMessages(script)
    ensures Processed(Trace(script)) == Deliveries(FetchedMessages(script))
    ensures Closes(Trace(script)) == if Stopped(script) then 1 else 0
    decreases |script|
  {
    if script != [] {
      EachFetchedMessageProcessedAndCommittedOnce(script[1..]);
      var rest := if Stops(script[0]) then [] else Trace(script[1..]);
      CommitsAppend(Turn(script[0]), rest);
      TurnCounts(script[0]);
      var head := if script[0].Fetched? then [script[0].msg] else [];
      if !Stops(script[0]) {
        DeliveriesAppend(head, FetchedMessages(script[1..]));
      }
    }
  }

  /** Within a trace, a Process action is immediately followed by the commit of
      the same message, a commit is immediately followed by the next fetch (if
      any), and a Close action comes last. So the next fetch happens only after
      the previous commit returned. */
  lemma {:induction false} TraceOrdering(script: seq<FetchResult>, i: nat)
    requires i < |Trace(script)|
    ensures Trace(script)[i].Process? ==>
              i + 1 < |Trace(script)| && Trace(script)[i + 1].Commit?
              && Trace(script)[i + 1].msg.topic == Trace(script)[i].topic
              && Trace(script)[i + 1].msg.value == Trace(script)[i].value
    ensures Trace(script)[i].Commit? && i + 1 < |Trace(script)| ==> Trace(script)[i + 1] == Fetch
    ensures Trace(script)[i].Close? ==> i == |Trace(script)| - 1
    decreases |script|
  {
    var t := Trace(script);
    var turn := Turn(script[0]);
    if !Stops(script[0]) {
      var rest := Trace(script[1..]);
      assert t == turn + rest;
      if i >= |turn| {
        TraceOrdering(script[1..], i - |turn|);
        assert t[i] == rest[i - |turn|];
        if i + 1 < |t| {
          assert t[i + 1] == rest[i + 1 - |turn|];
        }
      } else if i + 1 == |turn| && i + 1 < |t| {
        assert t[i + 1] == rest[0];
        assert script[1..] != [];
        assert rest[0] == Fetch;
      }
    }
  }

  lemma {:induction false} TraceSnoc(s: seq<FetchResult>, r: FetchResult)
    requires !Stopped(s)
    ensures Trace(s + [r]) == Trace(s) + Turn(r)
    decreases |s|
  {
    if s == [] {
      assert s + [r] == [r];
    } else {
      assert (s + [r])[0] == s[0];
      assert (s + [r])[1..] == s[1..] + [r];
      TraceSnoc(s[1..], r);
    }
  }

  lemma {:induction false} FetchedSnoc(s: seq<FetchResult>, r: FetchResult)
    requires !Stopped(s)
    ensures FetchedMessages(s + [r]) == FetchedMessages(s) + if r.Fetched? then [r.msg] else []
    decreases |s|
  {
    if s == [] {
      assert s + [r] == [r];
    } else {
      assert (s + [r])[0] == s[0];
      assert (s + [r])[1..] == s[1..] + [r];
      FetchedSnoc(s[1..], r);
    }
  }

  lemma {:induction false} StoppedSnoc(s: seq<FetchResult>, r: FetchResult)
    requires !Stopped(s)
    ensures Stopped(s + [r]) == Stops(r)
    decreases |s|
  {
    if s == [] {
      assert s + [r] == [r];
    } else {
      assert (s + [r])[0] == s[0];
      assert (s + [r])[1..] == s[1..] + [r];
      StoppedSnoc(s[1..], r);
    }
  }

  lemma {:induction false} TraceAfterStop(s: seq<FetchResult>, more: seq<FetchResult>)
    requires Stopped(s)
    ensures Stopped(s + more)
    ensures Trace(s + more) == Trace(s)
    ensures FetchedMessages(s + more) == FetchedMessages(s)
    decreases |s|
  {
    assert (s + more)[0] == s[0];
    if !Stops(s[0]) {
      assert (s + more)[1..] == s[1..] + more;
      TraceAfterStop(s[1..], more);
    }
  }

  /** Once a prefix of the script has stopped the loop, the rest of the
      script changes neither the trace nor the fetched messages. */
  lemma StopEndsRun(script: seq<FetchResult>, p: nat)
    requires p <= |script| && Stopped(script[..p])
    ensures Stopped(script)
    ensures Trace(script) == Trace(script[..p])
    ensures FetchedMessages(script) == FetchedMessages(script[..p])
  {
    assert script[..p] + script[p..] == script;
    TraceAfterStop(script[..p], script[p..]);
  }

  /** A topic map that renames the routed topics: every message fetched from
      its physical topics reaches the router under the physical name, falls
      through to the default branch, and leaves no record and sends nothing. */
  lemma {:induction false} RemappedTopicsAreNeverRouted(w: World, c: Wiring, topics: map<string, string>, msgs: seq<KafkaMessage>)
    requires forall i | 0 <= i < |msgs| :: msgs[i].topic in topics.Values
    requires OrderCreatedTopic !in topics.Values && PaymentSuccessTopic !in topics.Values
    ensures Run(w, c, Deliveries(msgs)) == w
    decreases |msgs|
  {
    if msgs != [] {
      OtherTopicsAreIgnored(w, c, msgs[0].topic, msgs[0].value);
      RemappedTopicsAreNeverRouted(w, c, topics, msgs[1..]);
    }
  }

  lemma {:induction false} RunSnoc(w: World, c: Wiring, ds: seq<(string, Bytes)>, d: (string, Bytes))
    ensures Run(w, c, ds + [d]) == Step(Run(w, c, ds), c, d.0, d.1).0
    decreases |ds|
  {
    if ds == [] {
      assert ds + [d] == [d];
    } else {
      assert (ds + [d])[1..] == ds[1..] + [d];
      RunSnoc(Step(w, c, ds[0].0, ds[0].1).0, c, ds[1..], d);
    }
  }

  /** What one more turn of the loop adds to the trace, the fetched messages
      and the router's world. */
  lemma PrefixTurn(script: seq<FetchResult>, p: nat)
    requires p < |script| && !Stopped(script[..p])
    ensures Trace(script[..p + 1]) == Trace(script[..p]) + Turn(script[p])
    ensures Stopped(script[..p + 1]) == Stops(script[p])
    ensures !script[p].Fetched? ==> FetchedMessages(script[..p + 1]) == FetchedMessages(script[..p])
    ensures script[p].Fetched? ==> FetchedMessages(script[..p + 1]) == FetchedMessages(script[..p]) + [script[p].msg]
  {
    var before := script[..p];
    var r := script[p];
    assert script[..p + 1] == before + [r];
    TraceSnoc(before, r);
    FetchedSnoc(before, r);
    StoppedSnoc(before, r);
  }

  /** A fetched message extends the router's run by one step. */
  lemma PrefixRun(w: World, c: Wiring, script: seq<FetchResult>, p: nat)
    requires p < |script| && !Stopped(script[..p]) && script[p].Fetched?
    ensures Run(w, c, Deliveries(FetchedMessages(script[..p + 1])))
            == Step(Run(w, c, Deliveries(FetchedMessages(script[..p]))), c, script[p].msg.topic, script[p].msg.value).0
  {
    var before := script[..p];
    var r := script[p];
    assert script[..p + 1] == before + [r];
    FetchedSnoc(before, r);
    DeliveriesAppend(FetchedMessages(before), [r.msg]);
    assert Deliveries([r.msg]) == [(r.msg.topic, r.msg.value)];
    RunSnoc(w, c, Deliveries(FetchedMessages(before)), (r.msg.topic, r.msg.value));
  }

  /** The broker connection kafka.NewReader opens. */
  class Reader {
    const config: ReaderConfig
    const script: seq<FetchResult>
    const commitFate: (nat, KafkaMessage) -> Option<string>
    var position: nat
    var committed: seq<KafkaMessage>
    var closeCount: nat

    constructor (config: ReaderConfig, script: seq<FetchResult>, commitFate: (nat, KafkaMessage) -> Option<string>)
      ensures this.config == config && this.script == script && this.commitFate == commitFate
      ensures position == 0 && committed == [] && closeCount == 0
    {
      this.config := config;
      this.script := script;
      this.commitFate := commitFate;
      position := 0;
      committed := [];
      closeCount := 0;
    }

    /** FetchMessage: the next outcome of the script. */
    method FetchMessage() returns (r: FetchResult)
      requires position < |script|
      modifies this
      ensures r == script[old(position)] && position == old(position) + 1
      ensures committed == old(committed) && closeCount == old(closeCount)
    {
      r := script[position];
      position := position + 1;
    }

    /** CommitMessages: recorded whatever its outcome. */
    method CommitMessages(m: KafkaMessage) returns (err: Option<string>)
      modifies this
      ensures committed == old(committed) + [m] && err == commitFate(|old(committed)|, m)
      ensures position == old(position) && closeCount == old(closeCount)
    {
      err := commitFate(|committed|, m);
      committed := committed + [m];
    }

    method Close()
      modifies this
      ensures closeCount == old(closeCount) + 1
      ensures position == old(position) && committed == old(committed)
    {
      closeCount := closeCount + 1;
    }
  }

  class Consumer {
    const processor: NotificationProcessor

    constructor (processor: NotificationProcessor)
      ensures this.processor == processor
    {
      this.processor := processor;
    }

    /** Start. With no broker it returns at once; otherwise it subscribes and
        runs fetch, process, commit until a fetch fails after cancellation. */
    method Start(brokers: seq<string>, topics: map<string, string>, groupId: string,
                 script: seq<FetchResult>, commitFate: (nat, KafkaMessage) -> Option<string>)
      returns (reader: Reader?, ghost trace: seq<Action>)
      modifies processor, processor.emailSender.dialer, processor.repo.collection, processor.repo.clock
      ensures |brokers| == 0 ==> reader == null && trace == [] && processor.Observed() == old(processor.Observed())
      ensures |brokers| > 0 ==>
                && reader != null && fresh(reader)
                && reader.config.brokers == brokers && reader.config.groupId == groupId
                && reader.config.minBytes == MinBytes && reader.config.maxBytes == MaxBytes
                && reader.config.maxWaitMillis == MaxWaitMillis
                && (|topics| > 0 ==> ListsValues(reader.config.groupTopics, topics))
                && (|topics| == 0 ==> reader.config.groupTopics == DefaultTopics)
                && trace == Trace(script)
                && reader.committed == FetchedMessages(script)
                && reader.closeCount == (if Stopped(script) then 1 else 0)
                && processor.Observed()
                   == Run(old(processor.Observed()), processor.Wired(), Deliveries(FetchedMessages(script)))
    {
      if |brokers| == 0 {
        return null, [];
      }
      var topicList := SubscriptionTopics(topics);
      reader := new Reader(ReaderConfig(brokers, topicList, groupId, MinBytes, MaxBytes, MaxWaitMillis), script, commitFate);
      trace := Poll(reader);
    }

    /** One fetched message: ProcessEvent, then CommitMessages whatever
        either of them returned (both errors are only logged). */
    method Handle(reader: Reader, m: KafkaMessage)
      modifies reader, processor, processor.emailSender.dialer, processor.repo.collection, processor.repo.clock
      ensures processor.Observed() == Step(old(processor.Observed()), processor.Wired(), m.topic, m.value).0
      ensures reader.committed == old(reader.committed) + [m]
      ensures reader.position == old(reader.position) && reader.closeCount == old(reader.closeCount)
    {
      var _ := processor.ProcessEvent(m.topic, m.value);
      var _ := reader.CommitMessages(m);
    }

    /** The loop's invariant: after the outcomes consumed so far, none of
        which stopped the loop, the trace, the commits and the router's world
        are those the specification gives for that prefix of the script. */
    ghost predicate Progress(reader: Reader, trace: seq<Action>, start: World)
      reads reader, this, processor, processor.emailSender.dialer, processor.repo.collection, processor.repo.clock
    {
      var done := reader.script[..if reader.position <= |reader.script| then reader.position else 0];
      && reader.position <= |reader.script|
      && !Stopped(done)
      && trace == Trace(done)
      && reader.committed == FetchedMessages(done)
      && reader.closeCount == 0
      && processor.Observed() == Run(start, processor.Wired(), Deliveries(FetchedMessages(done)))
    }

    /** One turn of the loop of Start. When it returns `stop`, the fetch failed
        after cancellation and only the Close is still to come. */
    method TakeTurn(reader: Reader, ghost trace: seq<Action>, ghost start: World)
      returns (stop: bool, ghost trace': seq<Action>)
      requires Progress(reader, trace, start) && reader.position < |reader.script|
      modifies reader, processor, processor.emailSender.dialer, processor.repo.collection, processor.repo.clock
      ensures reader.position == old(reader.position) + 1
      ensures !stop ==> Progress(reader, trace', start)
      ensures stop ==>
                && Stopped(reader.script[..reader.position])
                && trace' + [Close] == Trace(reader.script[..reader.position])
                && reader.committed == FetchedMessages(reader.script[..reader.position])
                && reader.closeCount == 0
                && processor.Observed() == Run(start, processor.Wired(), Deliveries(FetchedMessages(reader.script[..reader.position])))
    {
      PrefixTurn(reader.script, reader.position);
      var r := reader.FetchMessage();
      trace' := trace + [Fetch];
      stop := false;
      if r.FetchFailed? {
        if r.cancelled {
          stop := true;
          return;
        }
        trace' := trace' + [Backoff];
        return;
      }
      var m := r.msg;
      trace' := trace' + [Process(m.topic, m.value), Commit(m)];
      PrefixRun(start, processor.Wired(), reader.script, reader.position - 1);
      Handle(reader, m);
    }

    /** The fetch loop of Start and the Close after it. When the script ends
        without a cancelled failure, the model returns with the reader still
        open: the run observed so far. */
    method Poll(reader: Reader) returns (ghost trace: seq<Action>)
      requires reader.position == 0 && reader.committed == [] && reader.closeCount == 0
      modifies reader, processor, processor.emailSender.dialer, processor.repo.collection, processor.repo.clock
      ensures trace == Trace(reader.script)
      ensures reader.committed == FetchedMessages(reader.script)
      ensures reader.closeCount == (if Stopped(reader.script) then 1 else 0)
      ensures processor.Observed()
              == Run(old(processor.Observed()), processor.Wired(), Deliveries(FetchedMessages(reader.script)))
    {
      ghost var start := processor.Observed();
      trace := [];
      var cancelled := false;
      assert reader.script[..0] == [];

      while reader.position < |reader.script|
        invariant Progress(reader, trace, start)
        decreases |reader.script| - reader.position
      {
        cancelled, trace := TakeTurn(reader, trace, start);
        if cancelled {
          break;
        }
      }

      if cancelled {
        trace := trace + [Close];
        reader.Close();
        StopEndsRun(reader.script, reader.position);
      } else {
        assert reader.script[..reader.position] == reader.script;
      }
    }
  }
}
