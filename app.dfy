/**
 * Model of app.py: the Streamlit session state of one browser visit, its lazy initialisation,
 * and one chat turn (history, counters, exchange record).
 */
module App {
  import opened Wrappers
  import opened Chat
  import Utils
  import Bot

  /** A value stored in `st.session_state`. The two numeric kinds follow Python's int and float. */
  datatype Value = Int(i: int) | Real(r: real) | Text(s: string) | History(msgs: seq<Message>)

  predicate IsNumber(v: Value) {
    v.Int? || v.Real?
  }

  function NumberOf(v: Value): real
    requires IsNumber(v)
  {
    if v.Int? then v.i as real else v.r
  }

  /** Python's `+` on numbers: int + int stays an int, any float makes a float. */
  function Add(a: Value, b: Value): (s: Value)
    requires IsNumber(a) && IsNumber(b)
    ensures IsNumber(s) && NumberOf(s) == NumberOf(a) + NumberOf(b)
    ensures s.Int? <==> a.Int? && b.Int?
  {
    if a.Int? && b.Int? then Int(a.i + b.i) else Real(NumberOf(a) + NumberOf(b))
  }

  /** What a session-state access raises: a missing key, or `+=` on a value that is not a number. */
  datatype SessionError = KeyError(key: Key) | TypeError(key: Key)

  /**
   * A session-state key: the six keys `main` uses ("id_session", "query_num", "openai_model",
   * "total_cost", "total_tokens", "messages"), and any other string key.
   */
  datatype Key = IdSession | QueryNum | OpenAIModel | TotalCost | TotalTokens | Messages | Other(key: string)

  const SessionKeys: set<Key> := {IdSession, QueryNum, OpenAIModel, TotalCost, TotalTokens, Messages}

  /** Every session key that is present holds the kind of value `main` stores under it. */
  predicate Typed(s: map<Key, Value>) {
    && (IdSession in s ==> s[IdSession].Text?)
    && (QueryNum in s ==> s[QueryNum].Int?)
    && (OpenAIModel in s ==> s[OpenAIModel].Text?)
    && (TotalCost in s ==> IsNumber(s[TotalCost]))
    && (TotalTokens in s ==> s[TotalTokens].Int?)
    && (Messages in s ==> s[Messages].History?)
  }

  /** The state after the initialisation block: every session key present and typed. */
  predicate Ready(s: map<Key, Value>) {
    SessionKeys <= s.Keys && Typed(s)
  }

  /** One chat turn's external inputs: the user's prompt, the model's reply and the tokens it reports. */
  datatype TurnInput = TurnInput(prompt: string, reply: string, tokens: nat)

  /** The `PreguntasRespuestas` document written for each exchange (its timestamp is left out). */
  datatype ExchangeRecord = ExchangeRecord(
    idSesion: string, queryNum: int, pregunta: string, respuesta: string, coste: real, tokens: nat)

  /** The keys one turn writes. */
  const TurnKeys: set<Key> := {Messages, TotalCost, QueryNum, TotalTokens}

  /**
   * The session state after one turn of `main`: the prompt and then the reply are appended to
   * the history, `total_cost`, `query_num` and `total_tokens` are incremented, nothing else changes.
   */
  function AfterTurn(s: map<Key, Value>, t: TurnInput): (s': map<Key, Value>)
    requires Ready(s)
    ensures Ready(s') && s'.Keys == s.Keys
    ensures forall k :: k in s && k !in TurnKeys ==> s'[k] == s[k]
    ensures s'[Messages].msgs == s[Messages].msgs + [Message(User, t.prompt), Message(Assistant, t.reply)]
    ensures s'[QueryNum].i == s[QueryNum].i + 1
    ensures s'[TotalTokens].i == s[TotalTokens].i + t.tokens
    ensures NumberOf(s'[TotalCost]) == NumberOf(s[TotalCost]) + Bot.CalculateCost(t.tokens, s[OpenAIModel].s)
  {
    var s0 := s[Messages := History(s[Messages].msgs + [Message(User, t.prompt)])];
    var cost := Bot.CalculateCost(t.tokens, s0[OpenAIModel].s);
    var s1 := s0[TotalCost := Add(s0[TotalCost], Real(cost))];
    var s2 := s1[QueryNum := Add(s1[QueryNum], Int(1))];
    var s3 := s2[TotalTokens := Add(s2[TotalTokens], Int(t.tokens))];
    s3[Messages := History(s3[Messages].msgs + [Message(Assistant, t.reply)])]
  }

  /** The record a turn inserts, read from the state after the increments. */
  function RecordOf(s: map<Key, Value>, t: TurnInput): (rec: ExchangeRecord)
    requires Ready(s)
    ensures rec.queryNum == s[QueryNum].i + 1 && rec.idSesion == s[IdSession].s
    ensures rec.pregunta == t.prompt && rec.respuesta == t.reply && rec.tokens == t.tokens
    ensures rec.coste == Bot.CalculateCost(t.tokens, s[OpenAIModel].s)
  {
    var s' := AfterTurn(s, t);
    ExchangeRecord(s'[IdSession].s, s'[QueryNum].i, t.prompt, t.reply,
                   Bot.CalculateCost(t.tokens, s[OpenAIModel].s), t.tokens)
  }

  /** The state after a sequence of turns, in order. */
  function AfterTurns(s: map<Key, Value>, ts: seq<TurnInput>): (s': map<Key, Value>)
    requires Ready(s)
    ensures Ready(s')
    decreases |ts|
  {
    if ts == [] then s else AfterTurns(AfterTurn(s, ts[0]), ts[1..])
  }

  function SumTokens(ts: seq<TurnInput>): nat {
    if ts == [] then 0 else ts[0].tokens + SumTokens(ts[1..])
  }

  /**
   * Over any sequence of turns: `query_num` counts them, `total_tokens` adds their tokens,
   * `total_cost` never decreases, the history grows by two per turn and keeps its old prefix,
   * and the session id and model stay as they were.
   */
  lemma {:induction false} TurnsAccumulate(s: map<Key, Value>, ts: seq<TurnInput>)
    requires Ready(s)
    ensures AfterTurns(s, ts)[QueryNum].i == s[QueryNum].i + |ts|
    ensures AfterTurns(s, ts)[TotalTokens].i == s[TotalTokens].i + SumTokens(ts)
    ensures NumberOf(AfterTurns(s, ts)[TotalCost]) >= NumberOf(s[TotalCost])
    ensures |AfterTurns(s, ts)[Messages].msgs| == |s[Messages].msgs| + 2 * |ts|
    ensures s[Messages].msgs <= AfterTurns(s, ts)[Messages].msgs
    ensures AfterTurns(s, ts)[IdSession] == s[IdSession] && AfterTurns(s, ts)[OpenAIModel] == s[OpenAIModel]
  {
    if ts != [] {
      var s1 := AfterTurn(s, ts[0]);
      TurnsAccumulate(s1, ts[1..]);
    }
  }

  /**
   * Records are numbered by turn: the record of the turn that follows the first k turns carries
   * `query_num` k + 1 above the starting count, so a fresh session's first record carries 1.
   */
  lemma RecordNumbering(s: map<Key, Value>, ts: seq<TurnInput>, k: nat)
    requires Ready(s) && k < |ts|
    ensures RecordOf(AfterTurns(s, ts[..k]), ts[k]).queryNum == s[QueryNum].i + k + 1
    ensures RecordOf(AfterTurns(s, ts[..k]), ts[k]).idSesion == s[IdSession].s
  {
    TurnsAccumulate(s, ts[..k]);
  }

  /**
   * From a freshly seeded session, k turns later: `query_num` is k, the history holds 2 + 2k
   * messages and the system prompt is still at index 0.
   */
  lemma FreshSessionAfterTurns(s: map<Key, Value>, system: string, welcome: string, ts: seq<TurnInput>)
    requires Ready(s) && s[QueryNum] == Int(0) && s[TotalTokens] == Int(0)
    requires s[Messages] == History([Message(System, system), Message(Assistant, welcome)])
    ensures AfterTurns(s, ts)[QueryNum].i == |ts|
    ensures AfterTurns(s, ts)[TotalTokens].i == SumTokens(ts)
    ensures |AfterTurns(s, ts)[Messages].msgs| == 2 + 2 * |ts|
    ensures AfterTurns(s, ts)[Messages].msgs[0] == Message(System, system)
  {
    TurnsAccumulate(s, ts);
    assert s[Messages].msgs[0] == Message(System, system);
  }

  /** `if key not in st.session_state: st.session_state[key] = v`. */
  function SetDefault(s: map<Key, Value>, key: Key, v: Value): map<Key, Value>
  {
    if key in s then s else s[key := v]
  }

  /**
   * The history seeding of `main`: nothing when `messages` exists; otherwise `messages = []`
   * and the system prompt and the welcome message are appended. When building the prompt
   * raised, `messages` was already set to [] and stays so.
   */
  function Seed(s: map<Key, Value>, system: Result<string, Utils.FileError>, welcome: string): map<Key, Value>
  {
    if Messages in s then s
    else if system.Failure? then s[Messages := History([])]
    else s[Messages := History([Message(System, system.value), Message(Assistant, welcome)])]
  }

  /**
   * The whole initialisation block, key by key in the order `main` visits them, given the
   * session id `create_id_session()` draws, the outcome of `build_system_prompt()` and the
   * text of `get_welcome_msg()`.
   */
  function InitState(s: map<Key, Value>, id: string, system: Result<string, Utils.FileError>, welcome: string): map<Key, Value>
  {
    Seed(DefaultKeys(s, id), system, welcome)
  }

  /** The five counter and identity keys of the initialisation block, each set only when absent. */
  function DefaultKeys(s: map<Key, Value>, id: string): map<Key, Value>
  {
    var s1 := SetDefault(s, IdSession, Text(id));
    var s2 := SetDefault(s1, QueryNum, Int(0));
    var s3 := SetDefault(s2, OpenAIModel, Text(Bot.GetModel()));
    var s4 := SetDefault(s3, TotalCost, Int(0));
    SetDefault(s4, TotalTokens, Int(0))
  }

  /** One `setdefault` step adds its key, keeps every value already there and stores `v` only when absent. */
  lemma SetDefaultStep(s: map<Key, Value>, key: Key, v: Value)
    ensures SetDefault(s, key, v).Keys == s.Keys + {key}
    ensures forall k :: k in s ==> SetDefault(s, key, v)[k] == s[k]
    ensures key !in s ==> SetDefault(s, key, v)[key] == v
  {
  }

  /** The five defaults add their keys and keep every value already present. */
  lemma DefaultKeysKeep(s: map<Key, Value>, id: string)
    ensures DefaultKeys(s, id).Keys == s.Keys + {IdSession, QueryNum, OpenAIModel, TotalCost, TotalTokens}
    ensures forall k :: k in s ==> DefaultKeys(s, id)[k] == s[k]
  {
    var s1 := SetDefault(s, IdSession, Text(id));
    var s2 := SetDefault(s1, QueryNum, Int(0));
    var s3 := SetDefault(s2, OpenAIModel, Text(Bot.GetModel()));
    var s4 := SetDefault(s3, TotalCost, Int(0));
    SetDefaultStep(s, IdSession, Text(id));
    SetDefaultStep(s1, QueryNum, Int(0));
    SetDefaultStep(s2, OpenAIModel, Text(Bot.GetModel()));
    SetDefaultStep(s3, TotalCost, Int(0));
    SetDefaultStep(s4, TotalTokens, Int(0));
  }

  /** Each of the five keys that was absent gets its documented default. */
  lemma DefaultKeysValues(s: map<Key, Value>, id: string)
    ensures IdSession !in s ==> DefaultKeys(s, id)[IdSession] == Text(id)
    ensures QueryNum !in s ==> DefaultKeys(s, id)[QueryNum] == Int(0)
    ensures OpenAIModel !in s ==> DefaultKeys(s, id)[OpenAIModel] == Text(Bot.GetModel())
    ensures TotalCost !in s ==> DefaultKeys(s, id)[TotalCost] == Int(0)
    ensures TotalTokens !in s ==> DefaultKeys(s, id)[TotalTokens] == Int(0)
  {
    var s1 := SetDefault(s, IdSession, Text(id));
    var s2 := SetDefault(s1, QueryNum, Int(0));
    var s3 := SetDefault(s2, OpenAIModel, Text(Bot.GetModel()));
    var s4 := SetDefault(s3, TotalCost, Int(0));
    SetDefaultStep(s, IdSession, Text(id));
    SetDefaultStep(s1, QueryNum, Int(0));
    SetDefaultStep(s2, OpenAIModel, Text(Bot.GetModel()));
    SetDefaultStep(s3, TotalCost, Int(0));
    SetDefaultStep(s4, TotalTokens, Int(0));
  }

  /**
   * Initialisation only adds the session keys and keeps every value already present; each
   * absent key gets its documented default.
   */
  lemma InitStateProperties(s: map<Key, Value>, id: string, system: Result<string, Utils.FileError>, welcome: string)
    ensures InitState(s, id, system, welcome).Keys == s.Keys + SessionKeys
    ensures forall k :: k in s ==> InitState(s, id, system, welcome)[k] == s[k]
    ensures IdSession !in s ==> InitState(s, id, system, welcome)[IdSession] == Text(id)
    ensures QueryNum !in s ==> InitState(s, id, system, welcome)[QueryNum] == Int(0)
    ensures OpenAIModel !in s ==> InitState(s, id, system, welcome)[OpenAIModel] == Text(Bot.GetModel())
    ensures TotalCost !in s ==> InitState(s, id, system, welcome)[TotalCost] == Int(0)
    ensures TotalTokens !in s ==> InitState(s, id, system, welcome)[TotalTokens] == Int(0)
  {
    DefaultKeysKeep(s, id);
    DefaultKeysValues(s, id);
  }

  /** Seeding writes only `messages`: the system prompt and the welcome, or [] when the prompt failed. */
  lemma InitStateHistory(s: map<Key, Value>, id: string, system: Result<string, Utils.FileError>, welcome: string)
    ensures Messages !in s && system.Success? ==>
              InitState(s, id, system, welcome)[Messages] == History([Message(System, system.value), Message(Assistant, welcome)])
    ensures Messages !in s && system.Failure? ==> InitState(s, id, system, welcome)[Messages] == History([])
  {
    DefaultKeysKeep(s, id);
  }

  /**
   * The history a first run seeds, for a given context file and hour: the formatted system
   * prompt and the welcome message, or nothing when the context file is missing.
   */
  lemma SeededHistory(s: map<Key, Value>, id: string, file: Utils.ContextFile, hour: int)
    requires 0 <= hour < 24 && Messages !in s
    ensures Messages in InitState(s, id, Bot.BuildSystemPrompt(file), Bot.WelcomeMsg(hour))
    ensures file.present ==>
              InitState(s, id, Bot.BuildSystemPrompt(file), Bot.WelcomeMsg(hour))[Messages]
              == History([Message(System, Bot.PromptHead + Bot.BotName + Bot.PromptBody + file.text + "\n"),
                          Message(Assistant, Bot.WelcomeMsg(hour))])
    ensures !file.present ==> InitState(s, id, Bot.BuildSystemPrompt(file), Bot.WelcomeMsg(hour))[Messages] == History([])
  {
    InitStateProperties(s, id, Bot.BuildSystemPrompt(file), Bot.WelcomeMsg(hour));
    InitStateHistory(s, id, Bot.BuildSystemPrompt(file), Bot.WelcomeMsg(hour));
  }

  /** Initialising a well-typed session state leaves every session key present and typed. */
  lemma InitStateReady(s: map<Key, Value>, id: string, system: Result<string, Utils.FileError>, welcome: string)
    requires Typed(s)
    ensures Ready(InitState(s, id, system, welcome))
  {
    InitStateProperties(s, id, system, welcome);
    InitStateHistory(s, id, system, welcome);
  }

  /**
   * A first run without the context file leaves `messages` as []; it then exists, so later runs
   * never seed it again and the next turn's history has no system prompt at index 0.
   */
  lemma FailedSeedLosesSystemPrompt(s: map<Key, Value>, id: string, welcome: string, t: TurnInput)
    requires Typed(s) && Messages !in s
    ensures var ready := InitState(s, id, Failure(Utils.FileNotFound(Utils.ContextCvPath)), welcome);
            && Ready(ready)
            && AfterTurn(ready, t)[Messages].msgs == [Message(User, t.prompt), Message(Assistant, t.reply)]
  {
    var system: Result<string, Utils.FileError> := Failure(Utils.FileNotFound(Utils.ContextCvPath));
    InitStateReady(s, id, system, welcome);
    InitStateHistory(s, id, system, welcome);
  }

  /** Whether the initialisation block seeded the history, found it seeded, or failed while seeding. */
  datatype InitOutcome = AlreadySeeded | Seeded | SeedFailed(error: Utils.FileError)

  /** The database's exchange collection, as far as this model sees it: an append-only log. */
  class ExchangeLog {
    var records: seq<ExchangeRecord>

    constructor ()
      ensures records == []
    {
      records := [];
    }

    /** `insert_schema_in_db`: one new document per call, no deduplication. */
    method Insert(rec: ExchangeRecord)
      modifies this
      ensures records == old(records) + [rec]
    {
      records := records + [rec];
    }
  }

  /** `st.session_state` of one browser session. */
  class Session {
    var state: map<Key, Value>

    constructor ()
      ensures state == map[]
    {
      state := map[];
    }

    /** `get_key_sesion`: the stored value, KeyError when the key is missing. */
    function GetKey(key: Key): (r: Result<Value, SessionError>)
      reads this
      ensures r.Success? <==> key in state
      ensures r.Success? ==> r.value == state[key]
      ensures r.Failure? ==> r.error == KeyError(key)
    {
      if key in state then Success(state[key]) else Failure(KeyError(key))
    }

    /**
     * `inc_value_in_session(key, value)`: `state[key] += value`, returning the new value. Every
     * other key is unchanged; a missing key or a non-numeric value raises and changes nothing.
     */
    method IncValue(key: Key, delta: Value) returns (r: Result<Value, SessionError>)
      requires IsNumber(delta)
      modifies this
      ensures key !in old(state) ==> r == Failure(KeyError(key)) && state == old(state)
      ensures key in old(state) && !IsNumber(old(state)[key]) ==>
                r == Failure(TypeError(key)) && state == old(state)
      ensures key in old(state) && IsNumber(old(state)[key]) ==>
                && r == Success(Add(old(state)[key], delta))
                && NumberOf(r.value) == NumberOf(old(state)[key]) + NumberOf(delta)
                && state == old(state)[key := r.value]
    {
      if key !in state {
        return Failure(KeyError(key));
      }
      if !IsNumber(state[key]) {
        return Failure(TypeError(key));
      }
      state := state[key := Add(state[key], delta)];
      r := Success(state[key]);
    }

    /**
     * The initialisation block of `main`: each key is assigned its default only when absent.
     * Seeding the history first sets it to [] and then appends the system prompt and the
     * welcome message, so a missing context file leaves an empty history behind.
     */
    method Initialize(idDraws: seq<nat>, system: Result<string, Utils.FileError>, welcome: string) returns (outcome: InitOutcome)
      requires |idDraws| == Utils.DefaultIdLength && forall i :: 0 <= i < |idDraws| ==> idDraws[i] < Utils.LetterCount
      modifies this
      ensures state == InitState(old(state), Utils.CreateIdSession(Utils.DefaultIdLength, idDraws), system, welcome)
      ensures outcome == if Messages in old(state) then AlreadySeeded
                         else if system.Success? then Seeded
                         else SeedFailed(system.error)
    {
      var id := Utils.CreateIdSession(Utils.DefaultIdLength, idDraws);
      var st := state;
      if IdSession !in st {
        st := st[IdSession := Text(id)];
      }
      ghost var s1 := st;
      assert s1 == SetDefault(state, IdSession, Text(id));
      if QueryNum !in st {
        st := st[QueryNum := Int(0)];
      }
      ghost var s2 := st;
      assert s2 == SetDefault(s1, QueryNum, Int(0));
      if OpenAIModel !in st {
        st := st[OpenAIModel := Text(Bot.GetModel())];
      }
      ghost var s3 := st;
      assert s3 == SetDefault(s2, OpenAIModel, Text(Bot.GetModel()));
      if TotalCost !in st {
        st := st[TotalCost := Int(0)];
      }
      ghost var s4 := st;
      assert s4 == SetDefault(s3, TotalCost, Int(0));
      if TotalTokens !in st {
        st := st[TotalTokens := Int(0)];
      }
      assert st == SetDefault(s4, TotalTokens, Int(0));
      assert st == DefaultKeys(state, id);
      if Messages in st {
        state := st;
        return AlreadySeeded;
      }
      // `messages` is one list: it is set to [] and then appended to in place.
      var history: seq<Message> := [];
      if system.Failure? {
        state := st[Messages := History(history)];
        return SeedFailed(system.error);
      }
      history := history + [Message(System, system.value)];
      // The reveal draws one call's text; the stored message comes from a second call.
      var revealed, frames := Reveal(welcome);
      history := history + [Message(Assistant, welcome)];
      assert history == [Message(System, system.value), Message(Assistant, welcome)];
      state := st[Messages := History(history)];
      outcome := Seeded;
    }

    /** The history loop of `main`: every message but the system ones is drawn, in order. */
    method ShowHistory() returns (shown: seq<Message>)
      requires Messages in state && state[Messages].History?
      ensures shown == Visible(state[Messages].msgs)
    {
      var msgs := state[Messages].msgs;
      shown := [];
      var i := 0;
      while i < |msgs|
        invariant 0 <= i <= |msgs|
        invariant Visible(msgs) == shown + Visible(msgs[i..])
      {
        assert msgs[i..][1..] == msgs[i + 1..];
        if msgs[i].role != System {
          shown := shown + [msgs[i]];
        }
        i := i + 1;
      }
    }

    /**
     * The per-turn block of `main` once the model has answered: the prompt is appended, the reply
     * is revealed, cost, query count and tokens are accumulated, the reply is appended, and the
     * exchange record is inserted.
     */
    method Turn(prompt: string, reply: string, tokens: nat, log: ExchangeLog) returns (rec: ExchangeRecord)
      requires Ready(state)
      modifies this, log
      ensures state == AfterTurn(old(state), TurnInput(prompt, reply, tokens))
      ensures rec == RecordOf(old(state), TurnInput(prompt, reply, tokens))
      ensures log.records == old(log.records) + [rec]
    {
      ghost var s := state;
      state := state[Messages := History(state[Messages].msgs + [Message(User, prompt)])];
      var fullResponse, frames := Reveal(reply);
      var model := GetKey(OpenAIModel);
      var cost := Bot.CalculateCost(tokens, model.value.s);
      var r1 := IncValue(TotalCost, Real(cost));
      var r2 := IncValue(QueryNum, Int(1));
      var r3 := IncValue(TotalTokens, Int(tokens));
      state := state[Messages := History(state[Messages].msgs + [Message(Assistant, fullResponse)])];
      assert state == AfterTurn(s, TurnInput(prompt, reply, tokens));
      var id := GetKey(IdSession);
      var n := GetKey(QueryNum);
      rec := ExchangeRecord(id.value.s, n.value.i, prompt, reply, cost, tokens);
      log.Insert(rec);
    }
  }

  /** What one run of the `main` script ends in. */
  datatype RunOutcome =
    | Rerun                              // the history was just seeded; `st.rerun()` starts over
    | Crashed(error: Utils.FileError)    // build_system_prompt raised while seeding
    | Idle(shown: seq<Message>)          // history drawn, no prompt submitted
    | Answered(shown: seq<Message>, rec: ExchangeRecord)

  /**
   * One run of `main` for one session, given the context file and the hour: a first run seeds
   * the history and reruns (or crashes without a context file); a later one draws the history
   * and, when a prompt was submitted, runs a turn with the model's reply.
   */
  method RunScript(session: Session, log: ExchangeLog, idDraws: seq<nat>, context: Utils.ContextFile, hour: int,
                   input: Option<TurnInput>) returns (outcome: RunOutcome)
    requires |idDraws| == Utils.DefaultIdLength && forall i :: 0 <= i < |idDraws| ==> idDraws[i] < Utils.LetterCount
    requires 0 <= hour < 24
    requires Typed(session.state)
    modifies session, log
    ensures Ready(session.state)
    ensures Messages !in old(session.state) ==>
              && (outcome == if context.present then Rerun else Crashed(Utils.FileNotFound(Utils.ContextCvPath)))
              && session.state == InitState(old(session.state), Utils.CreateIdSession(Utils.DefaultIdLength, idDraws),
                                            Bot.BuildSystemPrompt(context), Bot.WelcomeMsg(hour))
              && log.records == old(log.records)
    ensures Messages in old(session.state) && input.None? ==>
              && outcome == Idle(Visible(old(session.state)[Messages].msgs))
              && session.state == InitState(old(session.state), Utils.CreateIdSession(Utils.DefaultIdLength, idDraws),
                                            Bot.BuildSystemPrompt(context), Bot.WelcomeMsg(hour))
              && log.records == old(log.records)
    ensures Messages in old(session.state) && input.Some? ==>
              var ready := InitState(old(session.state), Utils.CreateIdSession(Utils.DefaultIdLength, idDraws),
                                     Bot.BuildSystemPrompt(context), Bot.WelcomeMsg(hour));
              && Ready(ready)
              && outcome == Answered(Visible(old(session.state)[Messages].msgs), RecordOf(ready, input.value))
              && session.state == AfterTurn(ready, input.value)
              && log.records == old(log.records) + [outcome.rec]
  {
    outcome := RunScriptWith(session, log, idDraws, Bot.BuildSystemPrompt(context), Bot.WelcomeMsg(hour), input);
  }

  /**
   * The run of `main` once `build_system_prompt()` has given `system` and `get_welcome_msg()`
   * has given `welcome`; `SeededHistory` states both for a given context file and hour.
   */
  method RunScriptWith(session: Session, log: ExchangeLog, idDraws: seq<nat>, system: Result<string, Utils.FileError>,
                       welcome: string, input: Option<TurnInput>) returns (outcome: RunOutcome)
    requires |idDraws| == Utils.DefaultIdLength && forall i :: 0 <= i < |idDraws| ==> idDraws[i] < Utils.LetterCount
    requires Typed(session.state)
    modifies session, log
    ensures Ready(session.state)
    ensures Messages !in old(session.state) ==>
              && (outcome == if system.Success? then Rerun else Crashed(system.error))
              && session.state == InitState(old(session.state), Utils.CreateIdSession(Utils.DefaultIdLength, idDraws), system, welcome)
              && log.records == old(log.records)
    ensures Messages in old(session.state) && input.None? ==>
              && outcome == Idle(Visible(old(session.state)[Messages].msgs))
              && session.state == InitState(old(session.state), Utils.CreateIdSession(Utils.DefaultIdLength, idDraws), system, welcome)
              && log.records == old(log.records)
    ensures Messages in old(session.state) && input.Some? ==>
              var ready := InitState(old(session.state), Utils.CreateIdSession(Utils.DefaultIdLength, idDraws), system, welcome);
              && Ready(ready)
              && outcome == Answered(Visible(old(session.state)[Messages].msgs), RecordOf(ready, input.value))
              && session.state == AfterTurn(ready, input.value)
              && log.records == old(log.records) + [outcome.rec]
  {
    InitStateReady(session.state, Utils.CreateIdSession(Utils.DefaultIdLength, idDraws), system, welcome);
    var init := session.Initialize(idDraws, system, welcome);
    match init
    case Seeded => return Rerun;
    case SeedFailed(e) => return Crashed(e);
    case AlreadySeeded =>
      var shown := session.ShowHistory();
      if input.None? {
        return Idle(shown);
      }
      var t := input.value;
      var rec := session.Turn(t.prompt, t.reply, t.tokens, log);
      return Answered(shown, rec);
  }
}
