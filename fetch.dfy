/** The ingestion step of app/actions/worker.py: `handle_message`, the
    per-message checkpoint and forwarding discipline of `fetch_messages`, and
    one wake-up of the worker, where the retried fetch runs inside a
    `DataStorage` context that saves on exit. */
module Fetch {
  import opened Wrappers
  import opened Utils
  import opened Worker

  /** The storage key of the checkpoint. */
  const RECENT_MESSAGE_ID: string := "recent_message_id"

  /** A Telegram message: its id, whether we sent it, its text and annotations. */
  datatype Message = Message(id: int, out: bool, text: string, entities: Option<seq<Entity>>)

  datatype HandleError =
    | ParseFailed(error: ParseError)   // `parse_message_russian` raised
    | PostFailed(messageId: int)       // the webhook post raised after its own retries

  datatype FetchError =
    | HandleFailed(cause: HandleError)
    | ForwardFailed(messageId: int)    // `forward_messages` raised
    | ClientFailed                     // `iter_messages` raised while fetching

  /** `telegram_forward_to`: a peer id or a peer name. */
  datatype Peer = PeerId(id: int) | PeerName(name: string)

  /** Python truthiness of the setting: None, 0 and "" all mean "do not forward". */
  predicate ForwardSet(forwardTo: Option<Peer>) {
    match forwardTo
    case None => false
    case Some(PeerId(id)) => id != 0
    case Some(PeerName(name)) => name != ""
  }

  /** The two settings the loop reads. */
  datatype Config = Config(forwardTo: Option<Peer>, forwardOnlyParsed: bool)

  /** The outside world during one fetch: `handle_message` as the client and
      the webhook make it behave (see `Handler`), and the forward call (true
      when it succeeded). */
  datatype Env = Env(handle: Message -> Attempt<bool, HandleError>, forward: Message -> bool)

  /** `handle_message`: parse, post when there is a record, and report whether
      one was posted; an exception of either step propagates. */
  function HandleMessage(m: Message, resolve: string -> Option<int>, post: ParsedMessage -> bool): Attempt<bool, HandleError> {
    match ParseSpec(m.id, m.text, m.entities, resolve)
    case Err(e) => Raised(ParseFailed(e))
    case Ok(None) => Returned(false)
    case Ok(Some(p)) => if post(p) then Returned(true) else Raised(PostFailed(m.id))
  }

  /** `handle_message` reports true exactly when the parser produced a record
      and the post succeeded, false exactly when the message is not a
      donation notice, and raises the parser's error unchanged. */
  lemma HandleMessageCases(m: Message, resolve: string -> Option<int>, post: ParsedMessage -> bool)
    ensures var r := HandleMessage(m, resolve, post);
      var parsed := ParseSpec(m.id, m.text, m.entities, resolve);
      (r == Returned(true) <==> parsed.Ok? && parsed.value.Some? && post(parsed.value.value)) &&
      (r == Returned(false) <==> parsed == Ok(None)) &&
      (r.Raised? && r.error.ParseFailed? <==> parsed.Err?) &&
      (parsed.Err? ==> r == Raised(ParseFailed(parsed.error)))
  {
  }

  /** The handler of a world whose entity lookup is `resolve` and whose webhook
      post succeeds as `post` says. */
  function Handler(resolve: string -> Option<int>, post: ParsedMessage -> bool): Message -> Attempt<bool, HandleError> {
    m => HandleMessage(m, resolve, post)
  }

  /** The forwarding rule of the loop. */
  predicate ShouldForward(cfg: Config, handled: bool) {
    ForwardSet(cfg.forwardTo) && (!cfg.forwardOnlyParsed || handled)
  }

  /** What the loop body does with one message, up to the checkpoint: an
      outgoing message is skipped; otherwise it is handled and perhaps
      forwarded. The result says whether it was forwarded, or what was raised. */
  function Process(m: Message, cfg: Config, env: Env): Attempt<bool, FetchError> {
    if m.out then Returned(false)
    else match env.handle(m)
      case Raised(e) => Raised(HandleFailed(e))
      case Returned(handled) =>
        if !ShouldForward(cfg, handled) then Returned(false)
        else if env.forward(m) then Returned(true)
        else Raised(ForwardFailed(m.id))
  }

  /** How many messages the loop gets through: all of them, or up to the first
      one whose processing raises. */
  function Processed(ms: seq<Message>, cfg: Config, env: Env): (k: nat)
    ensures k <= |ms|
    ensures forall i :: 0 <= i < k ==> Process(ms[i], cfg, env).Returned?
    ensures k < |ms| ==> Process(ms[k], cfg, env).Raised?
  {
    if ms == [] || Process(ms[0], cfg, env).Raised? then 0
    else 1 + Processed(ms[1..], cfg, env)
  }

  /** The ids of the messages forwarded, in order. */
  function ForwardedIds(ms: seq<Message>, cfg: Config, env: Env): seq<int>
    decreases |ms|
  {
    if ms == [] then []
    else
      var init, last := ms[..|ms| - 1], ms[|ms| - 1];
      ForwardedIds(init, cfg, env) + if Process(last, cfg, env) == Returned(true) then [last.id] else []
  }

  /** The value the checkpoint holds after the loop got through `k` messages. */
  function CheckpointAfter(start: int, ms: seq<Message>, k: nat): int
    requires k <= |ms|
  {
    if k == 0 then start else ms[k - 1].id
  }

  /** The stored dict after the loop got through the first `k` messages: each
      of them moved the checkpoint to its own id. With no message processed
      the dict is kept as it was, so the start given to `CheckpointAfter` is
      never used. */
  function Checkpointed(data: map<string, PyValue>, ms: seq<Message>, k: nat): map<string, PyValue>
    requires k <= |ms|
  {
    if k == 0 then data else data[RECENT_MESSAGE_ID := PyInt(CheckpointAfter(0, ms, k))]
  }

  /** `fetch_messages` over the messages the client yields; `clientFails`
      says whether the client's iterator raises after yielding them instead of
      ending. After each message that does not raise, outgoing ones included,
      the checkpoint is set to its id and saved; a message that raises stops
      the loop before its checkpoint, and so does the iterator. */
  method FetchMessages(storage: DataStorage, messages: seq<Message>, clientFails: bool, cfg: Config, env: Env)
    returns (forwarded: seq<int>, failure: Option<FetchError>)
    modifies storage
    ensures var k := Processed(messages, cfg, env);
      forwarded == ForwardedIds(messages[..k], cfg, env) &&
      (failure.None? <==> k == |messages| && !clientFails) &&
      (k < |messages| ==> failure.Some? && Process(messages[k], cfg, env) == Raised(failure.value)) &&
      (k == |messages| && clientFails ==> failure == Some(ClientFailed)) &&
      storage.data == Checkpointed(old(storage.data), messages, k) &&
      storage.file == (if k == 0 then old(storage.file) else Some(storage.data))
  {
    forwarded := [];
    var i := 0;
    while i < |messages|
      invariant 0 <= i <= |messages|
      invariant forall j :: 0 <= j < i ==> Process(messages[j], cfg, env).Returned?
      invariant forwarded == ForwardedIds(messages[..i], cfg, env)
      invariant storage.data == Checkpointed(old(storage.data), messages, i)
      invariant storage.file == (if i == 0 then old(storage.file) else Some(storage.data))
    {
      var message := messages[i];
      assert messages[..i + 1][..i] == messages[..i];
      if !message.out {
        var handled := env.handle(message);
        if handled.Raised? {
          ProcessedAt(messages, cfg, env, i);
          return forwarded, Some(HandleFailed(handled.error));
        }
        if ForwardSet(cfg.forwardTo) && (!cfg.forwardOnlyParsed || handled.value) {
          var sent := env.forward(message);
          if !sent {
            ProcessedAt(messages, cfg, env, i);
            return forwarded, Some(ForwardFailed(message.id));
          }
          forwarded := forwarded + [message.id];
        }
      }
      storage.SetItem(RECENT_MESSAGE_ID, PyInt(message.id));
      storage.Save();
      i := i + 1;
    }
    ProcessedAt(messages, cfg, env, i);
    assert messages[..i] == messages;
    failure := if clientFails then Some(ClientFailed) else None;
  }

  /** `Processed` is the first position where processing raises. */
  lemma ProcessedAt(ms: seq<Message>, cfg: Config, env: Env, k: nat)
    requires k <= |ms|
    requires forall i :: 0 <= i < k ==> Process(ms[i], cfg, env).Returned?
    requires k < |ms| ==> Process(ms[k], cfg, env).Raised?
    ensures Processed(ms, cfg, env) == k
  {
  }

  // ---------------------------------------------------------------------------
  // Properties of one fetch
  // ---------------------------------------------------------------------------

  /** A message is forwarded exactly when it is incoming, handling it does not
      raise, forwarding is configured and allowed for its outcome (always, or
      only for a posted record), and the forward call succeeds. */
  lemma ForwardRule(m: Message, cfg: Config, env: Env)
    ensures Process(m, cfg, env) == Returned(true) <==>
      !m.out && env.handle(m).Returned? && ShouldForward(cfg, env.handle(m).value) && env.forward(m)
  {
  }

  /** The forwarded ids are the ids of the forwarded messages, in order. */
  lemma {:induction false} ForwardedMembers(ms: seq<Message>, cfg: Config, env: Env, x: int)
    ensures x in ForwardedIds(ms, cfg, env) <==>
      exists i :: 0 <= i < |ms| && ms[i].id == x && Process(ms[i], cfg, env) == Returned(true)
    decreases |ms|
  {
    if ms != [] {
      var init := ms[..|ms| - 1];
      ForwardedMembers(init, cfg, env, x);
      if x in ForwardedIds(init, cfg, env) {
        var i :| 0 <= i < |init| && init[i].id == x && Process(init[i], cfg, env) == Returned(true);
        assert ms[i] == init[i];
      }
      if exists i :: 0 <= i < |ms| && ms[i].id == x && Process(ms[i], cfg, env) == Returned(true) {
        var i :| 0 <= i < |ms| && ms[i].id == x && Process(ms[i], cfg, env) == Returned(true);
        if i < |init| {
          assert init[i] == ms[i];
        }
      }
    }
  }

  /** With `forward_only_parsed`, only messages whose record was posted are
      forwarded; outgoing messages never are. */
  lemma ForwardedWereParsed(ms: seq<Message>, cfg: Config, env: Env, i: nat)
    requires i < |ms| && Process(ms[i], cfg, env) == Returned(true)
    ensures !ms[i].out
    ensures cfg.forwardOnlyParsed ==> env.handle(ms[i]) == Returned(true)
    ensures ForwardSet(cfg.forwardTo)
  {
  }

  /** In the real world, with `forward_only_parsed`, a forwarded message is a
      donation announcement the parser turned into a record that was posted. */
  lemma ForwardedWerePosted(ms: seq<Message>, cfg: Config, resolve: string -> Option<int>,
                            post: ParsedMessage -> bool, forward: Message -> bool, i: nat)
    requires cfg.forwardOnlyParsed
    requires i < |ms| && Process(ms[i], cfg, Env(Handler(resolve, post), forward)) == Returned(true)
    ensures var parsed := ParseSpec(ms[i].id, ms[i].text, ms[i].entities, resolve);
      parsed.Ok? && parsed.value.Some? && post(parsed.value.value)
  {
    ForwardedWereParsed(ms, cfg, Env(Handler(resolve, post), forward), i);
    HandleMessageCases(ms[i], resolve, post);
  }

  /** The ids the client yields: ascending and above the stored checkpoint. */
  predicate Ascending(start: int, ms: seq<Message>) {
    (forall i :: 0 <= i < |ms| ==> start < ms[i].id) &&
    (forall i, j :: 0 <= i < j < |ms| ==> ms[i].id < ms[j].id)
  }

  /** The checkpoint separates what was processed from what was not: a second
      fetch from it yields exactly the messages not yet processed. */
  lemma CheckpointSplits(start: int, ms: seq<Message>, k: nat)
    requires Ascending(start, ms) && k <= |ms|
    ensures forall i :: 0 <= i < k ==> ms[i].id <= CheckpointAfter(start, ms, k)
    ensures forall i :: k <= i < |ms| ==> CheckpointAfter(start, ms, k) < ms[i].id
  {
  }

  /** The stored checkpoint after a fetch is that of its processed prefix, and
      the messages after it are exactly the ones not processed. */
  lemma FetchCheckpoint(data: map<string, PyValue>, start: int, ms: seq<Message>, cfg: Config, env: Env)
    requires Ascending(start, ms)
    requires RECENT_MESSAGE_ID in data ==> data[RECENT_MESSAGE_ID] == PyInt(start)
    ensures var k := Processed(ms, cfg, env);
      var after := Checkpointed(data, ms, k);
      (RECENT_MESSAGE_ID in data || k > 0 ==> after[RECENT_MESSAGE_ID] == PyInt(CheckpointAfter(start, ms, k))) &&
      (forall key :: key != RECENT_MESSAGE_ID ==> (key in after <==> key in data)) &&
      (forall key :: key != RECENT_MESSAGE_ID && key in data ==> after[key] == data[key]) &&
      (forall i :: 0 <= i < |ms| ==> (ms[i].id <= CheckpointAfter(start, ms, k) <==> i < k))
  {
    var k := Processed(ms, cfg, env);
    CheckpointSplits(start, ms, k);
  }

  /** Messages 5, 6 and 7 after checkpoint 4, where handling 7 raises: the
      checkpoint stops at 6, so the next fetch starts again at 7. */
  lemma FailureKeepsPreviousCheckpoint(cfg: Config, env: Env, text: string)
    requires Process(Message(7, false, text, None), cfg, env).Raised?
    ensures var ms := [Message(5, true, text, None), Message(6, true, text, None), Message(7, false, text, None)];
      Processed(ms, cfg, env) == 2 &&
      Checkpointed(map[RECENT_MESSAGE_ID := PyInt(4)], ms, 2) == map[RECENT_MESSAGE_ID := PyInt(6)]
  {
    var ms := [Message(5, true, text, None), Message(6, true, text, None), Message(7, false, text, None)];
    ProcessedAt(ms, cfg, env, 2);
  }

  // ---------------------------------------------------------------------------
  // One wake-up: `with DataStorage() as storage: await fetch_messages(...)`
  // ---------------------------------------------------------------------------

  /** What one fetch attempt sees: the messages the client yields, whether
      the client then raises instead of ending, and the outside world. */
  datatype Try = Try(messages: seq<Message>, clientFails: bool, env: Env)

  /** The outcome of one fetch attempt, as `async_retry` sees it. */
  function FetchOutcome(t: Try, cfg: Config): Attempt<(), FetchError> {
    var k := Processed(t.messages, cfg, t.env);
    if k < |t.messages| then Raised(Process(t.messages[k], cfg, t.env).error)
    else if t.clientFails then Raised(ClientFailed)
    else Returned(())
  }

  function FetchOutcomes(tries: seq<Try>, cfg: Config): (r: seq<Attempt<(), FetchError>>)
    ensures |r| == |tries|
    ensures forall i :: 0 <= i < |tries| ==> r[i] == FetchOutcome(tries[i], cfg)
  {
    seq(|tries|, i requires 0 <= i < |tries| => FetchOutcome(tries[i], cfg))
  }

  /** The stored dict after the given attempts, each resuming from the
      checkpoint the previous one left. */
  function AfterTries(data: map<string, PyValue>, tries: seq<Try>, cfg: Config): map<string, PyValue>
    decreases |tries|
  {
    if tries == [] then data
    else
      var last := tries[|tries| - 1];
      Checkpointed(AfterTries(data, tries[..|tries| - 1], cfg), last.messages,
                   Processed(last.messages, cfg, last.env))
  }

  lemma AfterTriesSnoc(data: map<string, PyValue>, tries: seq<Try>, n: nat, cfg: Config)
    requires n < |tries|
    ensures AfterTries(data, tries[..n + 1], cfg) ==
      Checkpointed(AfterTries(data, tries[..n], cfg), tries[n].messages,
                   Processed(tries[n].messages, cfg, tries[n].env))
  {
    assert tries[..n + 1][..n] == tries[..n];
  }

  /** The error a fetch reports is its outcome as the retry sees it. */
  lemma FetchOutcomeOf(t: Try, cfg: Config, failure: Option<FetchError>)
    requires var k := Processed(t.messages, cfg, t.env);
      (failure.None? <==> k == |t.messages| && !t.clientFails) &&
      (k < |t.messages| ==> failure.Some? && Process(t.messages[k], cfg, t.env) == Raised(failure.value)) &&
      (k == |t.messages| && t.clientFails ==> failure == Some(ClientFailed))
    ensures FetchOutcome(t, cfg) == if failure.None? then Returned(()) else Raised(failure.value)
  {
  }

  /** One call of the wrapped `fetch_messages`, as the retry sees it: it
      returns or raises, and moves the checkpoint. */
  method FetchAttempt(storage: DataStorage, t: Try, cfg: Config) returns (result: Attempt<(), FetchError>)
    modifies storage
    ensures result == FetchOutcome(t, cfg)
    ensures storage.data == Checkpointed(old(storage.data), t.messages, Processed(t.messages, cfg, t.env))
    ensures storage.file == if Processed(t.messages, cfg, t.env) == 0 then old(storage.file) else Some(storage.data)
  {
    var _, failure := FetchMessages(storage, t.messages, t.clientFails, cfg, t.env);
    result := if failure.None? then Returned(()) else Raised(failure.value);
    FetchOutcomeOf(t, cfg, failure);
  }

  /** Whether some of the given attempts got through at least one message, and
      so saved the file. */
  predicate SomeProcessed(tries: seq<Try>, cfg: Config)
    decreases |tries|
  {
    tries != [] &&
    (SomeProcessed(tries[..|tries| - 1], cfg) ||
     Processed(tries[|tries| - 1].messages, cfg, tries[|tries| - 1].env) > 0)
  }

  /** One more attempt keeps the stored dict and the saved file where the
      attempts so far put them. */
  lemma RetryStep(data0: map<string, PyValue>, file0: Option<map<string, PyValue>>, tries: seq<Try>, n: nat, cfg: Config,
                  data: map<string, PyValue>, file: Option<map<string, PyValue>>,
                  data': map<string, PyValue>, file': Option<map<string, PyValue>>)
    requires n < |tries|
    requires data == AfterTries(data0, tries[..n], cfg)
    requires file == if SomeProcessed(tries[..n], cfg) then Some(data) else file0
    requires data' == Checkpointed(data, tries[n].messages, Processed(tries[n].messages, cfg, tries[n].env))
    requires file' == if Processed(tries[n].messages, cfg, tries[n].env) == 0 then file else Some(data')
    ensures data' == AfterTries(data0, tries[..n + 1], cfg)
    ensures file' == if SomeProcessed(tries[..n + 1], cfg) then Some(data') else file0
  {
    assert tries[..n + 1][..n] == tries[..n];
  }

  lemma RaisedSoFar(outcomes: seq<Attempt<(), FetchError>>, n: nat)
    requires n < |outcomes|
    requires forall j :: 0 <= j < n ==> outcomes[j].Raised?
    requires outcomes[n].Raised?
    ensures forall j :: 0 <= j < n + 1 ==> outcomes[j].Raised?
  {
  }

  /** `async_retry(attempts)` around `fetch_messages`: every attempt works on
      the same storage, so each resumes from the checkpoint the previous one
      left. */
  method FetchWithRetry(storage: DataStorage, attempts: AttemptLimit, cfg: Config, tries: seq<Try>)
    returns (result: Attempt<(), FetchError>, calls: nat)
    requires attempts <= |tries|
    modifies storage
    ensures calls == RetryCalls(attempts, FetchOutcomes(tries, cfg))
    ensures result == FetchOutcomes(tries, cfg)[calls - 1]
    ensures storage.data == AfterTries(old(storage.data), tries[..calls], cfg)
    ensures storage.file == if SomeProcessed(tries[..calls], cfg) then Some(storage.data) else old(storage.file)
  {
    ghost var outcomes := FetchOutcomes(tries, cfg);
    var attempt := 0;
    assert tries[..0] == [];
    while true
      invariant 0 <= attempt < attempts
      invariant forall j :: 0 <= j < attempt ==> outcomes[j].Raised?
      invariant storage.data == AfterTries(old(storage.data), tries[..attempt], cfg)
      invariant storage.file == if SomeProcessed(tries[..attempt], cfg) then Some(storage.data) else old(storage.file)
      decreases attempts - attempt
    {
      ghost var data, file := storage.data, storage.file;
      result := FetchAttempt(storage, tries[attempt], cfg);
      RetryStep(old(storage.data), old(storage.file), tries, attempt, cfg,
                data, file, storage.data, storage.file);
      if result.Returned? || attempt == attempts - 1 {
        calls := attempt + 1;
        RetryCallsFromIs(attempts, outcomes, 0, calls);
        return;
      }
      RaisedSoFar(outcomes, attempt);
      attempt := attempt + 1;
    }
  }

  /** A client that raises partway through a fetch makes the attempt raise,
      so the retry calls `fetch_messages` again (when the limit allows), and
      that call resumes from the checkpoint of the messages already handled. */
  lemma ClientFailureRetried(data: map<string, PyValue>, attempts: AttemptLimit, cfg: Config, tries: seq<Try>)
    requires 2 <= attempts <= |tries|
    requires tries[0].clientFails
    ensures FetchOutcome(tries[0], cfg).Raised?
    ensures RetryCalls(attempts, FetchOutcomes(tries, cfg)) >= 2
    ensures AfterTries(data, tries[..1], cfg) ==
      Checkpointed(data, tries[0].messages, Processed(tries[0].messages, cfg, tries[0].env))
  {
    AfterTriesSnoc(data, tries, 0, cfg);
    assert tries[..0] == [];
  }

  /** One wake-up of `wait_for_messages`: open the storage (reading the file),
      run the retried fetch, and save on leaving the `with` block whether the
      fetch succeeded or raised. */
  method RunCycle(file: Option<map<string, PyValue>>, attempts: AttemptLimit, cfg: Config, tries: seq<Try>)
    returns (newFile: Option<map<string, PyValue>>, result: Attempt<(), FetchError>, calls: nat)
    requires attempts <= |tries|
    ensures calls == RetryCalls(attempts, FetchOutcomes(tries, cfg))
    ensures result == FetchOutcomes(tries, cfg)[calls - 1]
    ensures newFile == Some(AfterTries(if file.Some? then file.value else map[], tries[..calls], cfg))
  {
    var storage := new DataStorage(file);
    result, calls := FetchWithRetry(storage, attempts, cfg, tries);
    storage.Exit();
    newFile := storage.file;
  }
}
