/**
 * Model of LLMMemory.py, the langchain variant of the chatbot: its own greeting table, template and
 * welcome, the seeding of the message history, the turn with its error fallbacks, the usage
 * bookkeeping and the user-profile helpers.
 */
module Memory {
  import opened Wrappers
  import opened Chat
  import Utils
  import Bot

  // ---------------------------------------------------------------- constants

  /** `BOT_NAME`. */
  const BotName := "Renardo"

  /** `ANSWER_ERROR`, the assistant text stored when the model call fails. */
  const AnswerError := "Lo siento pero parece que se ha producido un error y no puedo seguir respondiendo... 😌"

  /** The second assistant message of a fresh history. */
  const IntroQuestion := "Pero primero, ¿Podrías presentarte un poco?"

  // ---------------------------------------------------------------- greeting

  /** This file's own copy of `SALUDO`. */
  const Saludo: Bot.GreetingTable := [
    (Bot.HourRange(0, 7), "¡Buenas noches! "),
    (Bot.HourRange(7, 14), "¡Buenos días! "),
    (Bot.HourRange(14, 17), "¡Muy buenas! "),
    (Bot.HourRange(17, 20), "¡Buenas tardes! "),
    (Bot.HourRange(20, 24), "¡Buenas noches! ")
  ]

  /** The copy holds the same ranges with the same greetings, in the same order, as backend/bot.py's. */
  lemma SameGreetingTable()
    ensures Saludo == Bot.Saludo
  {
  }

  /**
   * `custom_saludo`: the same search over the copy. Every hour of the day finds a range, and the
   * greeting is the one backend/bot.py gives for that hour.
   */
  function CustomGreeting(hour: int): (g: string)
    requires 0 <= hour < 24
    ensures Bot.FirstMatch(Saludo, hour) == Some(g)
    ensures g == Bot.CustomGreeting(hour)
  {
    SameGreetingTable();
    Bot.SaludoPartition(hour);
    Bot.FirstMatch(Saludo, hour).value
  }

  // ---------------------------------------------------------------- template and welcome

  /**
   * The text of `TEMPLATE` between `{nombre_bot}` and `{context}`: backend/bot.py's with a blank
   * line after the name sentence and another after the goal.
   */
  const TemplateBody := Bot.BodyLine0 + "\n" + Bot.BodyLine1 + Bot.BodyLine2 + "\n" + Bot.BodyLine3 + Bot.BodyLine4
                        + Bot.BodyLine5 + Bot.BodyLine6 + Bot.BodyLine7 + Bot.BodyLine8 + Bot.BodyLine9
                        + Bot.BodyLine10 + Bot.BodyLine11 + Bot.BodyLine12 + Bot.BodyLine13

  /** `TEMPLATE`, split at its fields `{nombre_bot}` and `{context}`. */
  const Template: Bot.Template := [Bot.Text(Bot.PromptHead), Bot.Field("nombre_bot"), Bot.Text(TemplateBody), Bot.Field("context"), Bot.Text("\n")]

  /**
   * `get_system_prompt_message`: the content of the system message, or None when `get_context`
   * finds no file and stops the script.
   */
  function SystemPromptMessage(file: Utils.ContextFile): (r: Option<string>)
    ensures r.Some? <==> file.present
  {
    if !file.present then None
    else
      var args := map["context" := file.text, "nombre_bot" := BotName];
      var formatted := Bot.FormatPrompt(Template, args);
      Bot.FormatTwoFields(Bot.PromptHead, "nombre_bot", TemplateBody, "context", "\n", args);
      // Both fields are supplied, so formatting cannot raise here.
      Some(formatted.value)
  }

  /** The system message puts the bot's name and the context text in their places in `TEMPLATE`. */
  lemma SystemPromptText(file: Utils.ContextFile)
    requires file.present
    ensures SystemPromptMessage(file) == Some(Bot.PromptHead + BotName + TemplateBody + file.text + "\n")
  {
    var args := map["context" := file.text, "nombre_bot" := BotName];
    Bot.FormatTwoFields(Bot.PromptHead, "nombre_bot", TemplateBody, "context", "\n", args);
  }

  /** The text after the bot's name in the first assistant message. */
  const WelcomeTail := ".                    \n" + Bot.WelcomeLine1 + Bot.WelcomeLine2

  /** The first assistant message of `init_memory`: greeting, then the name in the introduction. */
  function WelcomeMsg(hour: int): (msg: string)
    requires 0 <= hour < 24
    ensures |CustomGreeting(hour)| <= |msg| && msg[..|CustomGreeting(hour)|] == CustomGreeting(hour)
    ensures var k := |CustomGreeting(hour)| + |Bot.WelcomeMiddle|;
            k + |BotName| <= |msg| && msg[k..k + |BotName|] == BotName
  {
    var g := CustomGreeting(hour);
    var msg := g + Bot.WelcomeMiddle + BotName + WelcomeTail;
    assert msg[..|g|] == g;
    assert msg[|g| + |Bot.WelcomeMiddle|..|g| + |Bot.WelcomeMiddle| + |BotName|] == BotName;
    msg
  }

  /** The list `init_memory` stores: system prompt, welcome, and the question about the user. */
  function SeedHistory(system: string, welcome: string): (h: seq<Message>)
    ensures |h| == 3 && h[0].role == System
    ensures forall i :: 1 <= i < |h| ==> h[i].role == Assistant
  {
    [Message(System, system), Message(Assistant, welcome), Message(Assistant, IntroQuestion)]
  }

  // ---------------------------------------------------------------- user profile

  /** A profile field as the extraction may leave it: None, a string, or an integer. */
  datatype Value = NoneValue | Str(s: string) | Int(i: int)

  /** `DetalleUsuario`, field by field in declaration order. */
  datatype UserDetails = UserDetails(nombre: Value, apellidos: Value, empresa: Value, email: Value)

  /** The field names of `DetalleUsuario`, in the order `.dict()` lists them. */
  const FieldNames: seq<string> := ["nombre", "apellidos", "empresa", "email"]

  /** `.dict().items()`: the fields paired with their names, in declaration order. */
  function Items(d: UserDetails): (items: seq<(string, Value)>)
    ensures |items| == |FieldNames|
    ensures forall i :: 0 <= i < |items| ==> items[i].0 == FieldNames[i]
  {
    [("nombre", d.nombre), ("apellidos", d.apellidos), ("empresa", d.empresa), ("email", d.email)]
  }

  /** `valor in [None, "", 0]`: the scan's notion of a value still to ask for. */
  predicate IsBlank(v: Value) {
    v == NoneValue || v == Str("") || v == Int(0)
  }

  /** `v not in [None, ""]` fails: the merge's notion of a value not worth copying. (0 is copied.) */
  predicate IsUnset(v: Value) {
    v == NoneValue || v == Str("")
  }

  /** The names of the blank entries of a list of items, in order. */
  function BlankNames(items: seq<(string, Value)>): seq<string> {
    if items == [] then []
    else if IsBlank(items[0].1) then [items[0].0] + BlankNames(items[1..])
    else BlankNames(items[1..])
  }

  /** A name is listed exactly when some item of that name is blank, and nothing else is listed. */
  lemma {:induction false} BlankNamesMembers(items: seq<(string, Value)>)
    ensures |BlankNames(items)| <= |items|
    ensures forall n :: n in BlankNames(items) <==> exists i :: 0 <= i < |items| && items[i].0 == n && IsBlank(items[i].1)
  {
    if items != [] {
      BlankNamesMembers(items[1..]);
      assert forall i :: 1 <= i < |items| ==> items[i] == items[1..][i - 1];
    }
  }

  /** The missing fields of a profile, spelled out: each blank field's name, in declaration order. */
  lemma {:induction false} MissingInFieldOrder(d: UserDetails)
    ensures BlankNames(Items(d)) ==
              (if IsBlank(d.nombre) then ["nombre"] else [])
              + (if IsBlank(d.apellidos) then ["apellidos"] else [])
              + (if IsBlank(d.empresa) then ["empresa"] else [])
              + (if IsBlank(d.email) then ["email"] else [])
  {
    var it := Items(d);
    assert it[1..][1..][1..][1..] == [];
    assert BlankNames(it[1..][1..][1..]) == (if IsBlank(d.email) then ["email"] else []);
    assert BlankNames(it[1..][1..]) == (if IsBlank(d.empresa) then ["empresa"] else []) + (if IsBlank(d.email) then ["email"] else []);
  }

  /** The comprehension of `actualizar_detalles_no_nulos`: the fields worth copying, by name. */
  function NonEmptyDetails(d: UserDetails): (update: map<string, Value>)
    ensures forall i :: 0 <= i < |Items(d)| ==> (Items(d)[i].0 in update <==> !IsUnset(Items(d)[i].1))
    ensures forall i :: 0 <= i < |Items(d)| && Items(d)[i].0 in update ==> update[Items(d)[i].0] == Items(d)[i].1
    ensures update.Keys <= set n | n in FieldNames
  {
    map i | 0 <= i < |Items(d)| && !IsUnset(Items(d)[i].1) :: Items(d)[i].0 := Items(d)[i].1
  }

  /** pydantic's `copy(update=...)`: each named field takes the update's value, the others keep theirs. */
  function CopyUpdate(d: UserDetails, update: map<string, Value>): UserDetails {
    UserDetails(
      if "nombre" in update then update["nombre"] else d.nombre,
      if "apellidos" in update then update["apellidos"] else d.apellidos,
      if "empresa" in update then update["empresa"] else d.empresa,
      if "email" in update then update["email"] else d.email)
  }

  /** The incoming profile `actualizar_detalles_no_nulos` binds. */
  function MergeNonEmpty(current: UserDetails, incoming: UserDetails): UserDetails {
    CopyUpdate(current, NonEmptyDetails(incoming))
  }

  /** Field by field, the merge takes a incoming value unless it is None or "", and keeps the current one otherwise. */
  lemma MergeFieldwise(current: UserDetails, incoming: UserDetails)
    ensures MergeNonEmpty(current, incoming).nombre == if IsUnset(incoming.nombre) then current.nombre else incoming.nombre
    ensures MergeNonEmpty(current, incoming).apellidos == if IsUnset(incoming.apellidos) then current.apellidos else incoming.apellidos
    ensures MergeNonEmpty(current, incoming).empresa == if IsUnset(incoming.empresa) then current.empresa else incoming.empresa
    ensures MergeNonEmpty(current, incoming).email == if IsUnset(incoming.email) then current.email else incoming.email
  {
    var u := NonEmptyDetails(incoming);
    assert Items(incoming)[0].0 == "nombre" && Items(incoming)[1].0 == "apellidos";
    assert Items(incoming)[2].0 == "empresa" && Items(incoming)[3].0 == "email";
  }

  /** Applying the same update twice gives what applying it once gives. */
  lemma MergeIdempotent(current: UserDetails, incoming: UserDetails)
    ensures MergeNonEmpty(MergeNonEmpty(current, incoming), incoming) == MergeNonEmpty(current, incoming)
  {
    MergeFieldwise(current, incoming);
    MergeFieldwise(MergeNonEmpty(current, incoming), incoming);
  }

  /** A merge never makes a field blank that had a value worth keeping: set fields stay set. */
  lemma MergeKeepsSet(current: UserDetails, incoming: UserDetails)
    ensures !IsUnset(current.nombre) ==> !IsUnset(MergeNonEmpty(current, incoming).nombre)
    ensures !IsUnset(current.apellidos) ==> !IsUnset(MergeNonEmpty(current, incoming).apellidos)
    ensures !IsUnset(current.empresa) ==> !IsUnset(MergeNonEmpty(current, incoming).empresa)
    ensures !IsUnset(current.email) ==> !IsUnset(MergeNonEmpty(current, incoming).email)
  {
    MergeFieldwise(current, incoming);
  }

  // ---------------------------------------------------------------- asking for details

  /** `max(0, 7 - num_preguntas)`, the top of the draw. */
  function MaxDraw(n: int): nat {
    if 7 - n > 0 then 7 - n else 0
  }

  /** `probabilidad_preguntar(n)` given the draw of `random.randint(0, max_num)`. */
  function ShouldAsk(n: int, draw: int): (ask: bool)
    requires 0 <= draw <= MaxDraw(n)
    ensures !ask <==> draw == 0
    ensures n >= 7 ==> !ask
  {
    if draw == 0 then false else true
  }

  /** Some draw asks exactly when fewer than seven questions were made. */
  lemma AskPossibleIffFewQuestions(n: int)
    ensures (exists d :: 0 <= d <= MaxDraw(n) && ShouldAsk(n, d)) <==> n < 7
  {
    if n < 7 {
      assert ShouldAsk(n, 1);
    }
  }

  // ---------------------------------------------------------------- the model call

  /** The exceptions `get_response_with_memory` tells apart. */
  datatype ErrorKind = Authentication | Connection | DataType | DataValue | OtherError

  /** What the model call gives: the reply with the callback's metering, or the exception it raised. */
  datatype ModelOutcome = Completed(text: string, tokens: nat, cost: real) | Raised(kind: ErrorKind)

  /** The dictionary `get_response_with_memory` fills and returns. */
  datatype Response = Response(respuesta: string, tokens: nat, coste: real)

  /** How one turn ends. */
  datatype TurnResult =
    | Answered(response: Response)   // the reply, stored and metered
    | Fallback(respuesta: string)    // a recoverable error: ANSWER_ERROR is shown and stored
    | Halted                         // AuthenticationError: `st.stop()`
    | NoHistory                      // `messages` was never seeded

  /** How the script ends one turn as written: returning, stopping, or raising out of the function. */
  datatype AsWrittenExit = Returned(response: Response) | Stopped | UnboundLocal

  /**
   * The turn exactly as written, on the history: the question is appended, then either the reply
   * or ANSWER_ERROR; after any exception but AuthenticationError control falls through to the
   * append of `AIMessage_response`, which was never bound, and the call raises.
   */
  function AsWrittenTurn(msgs: seq<Message>, question: string, call: ModelOutcome): (r: (seq<Message>, AsWrittenExit))
  {
    var asked := msgs + [Message(User, question)];
    match call
    case Completed(text, tokens, cost) =>
      (asked + [Message(Assistant, text)], Returned(Response(text, tokens, cost)))
    case Raised(kind) =>
      var failed := asked + [Message(Assistant, AnswerError)];
      if kind == Authentication then (failed, Stopped) else (failed, UnboundLocal)
  }

  /** The defect: a recoverable error never reaches the ANSWER_ERROR reply, the call raises instead. */
  lemma AsWrittenRecoverableRaises(msgs: seq<Message>, question: string)
    ensures AsWrittenTurn(msgs, question, Raised(Connection)).1 == UnboundLocal
    ensures forall k :: k != Authentication ==> AsWrittenTurn(msgs, question, Raised(k)).1 == UnboundLocal
  {
  }

  /**
   * The turn as intended, on the history: a recoverable error ends the turn after the ANSWER_ERROR
   * append, with ANSWER_ERROR as the reply.
   */
  function CorrectedTurn(msgs: seq<Message>, question: string, call: ModelOutcome): (r: (seq<Message>, TurnResult))
  {
    var asked := msgs + [Message(User, question)];
    match call
    case Completed(text, tokens, cost) =>
      (asked + [Message(Assistant, text)], Answered(Response(text, tokens, cost)))
    case Raised(kind) =>
      var failed := asked + [Message(Assistant, AnswerError)];
      if kind == Authentication then (failed, Halted) else (failed, Fallback(AnswerError))
  }

  /**
   * Every turn, answered or not, appends the question and then one assistant message, keeping the
   * old history as a prefix; the assistant message is the reply, or ANSWER_ERROR on any error.
   */
  lemma CorrectedTurnHistory(msgs: seq<Message>, question: string, call: ModelOutcome)
    ensures var h := CorrectedTurn(msgs, question, call).0;
            && |h| == |msgs| + 2
            && h[..|msgs|] == msgs
            && h[|msgs|] == Message(User, question)
            && h[|msgs| + 1] == Message(Assistant, if call.Completed? then call.text else AnswerError)
  {
    var h := CorrectedTurn(msgs, question, call).0;
    assert h[..|msgs|] == msgs;
  }

  /** The correction changes nothing where the code works: on a reply, and on AuthenticationError. */
  lemma CorrectedAgreesWhereDefined(msgs: seq<Message>, question: string, call: ModelOutcome)
    ensures CorrectedTurn(msgs, question, call).0 == AsWrittenTurn(msgs, question, call).0
    ensures call.Completed? ==>
              CorrectedTurn(msgs, question, call).1 == Answered(AsWrittenTurn(msgs, question, call).1.response)
    ensures call == Raised(Authentication) ==>
              CorrectedTurn(msgs, question, call).1 == Halted && AsWrittenTurn(msgs, question, call).1 == Stopped
  {
  }

  /** A history that starts with its system prompt keeps it at index 0 through any turn. */
  lemma TurnKeepsSystemPrompt(msgs: seq<Message>, question: string, call: ModelOutcome)
    requires |msgs| > 0 && msgs[0].role == System
    ensures CorrectedTurn(msgs, question, call).0[0] == msgs[0]
  {
    CorrectedTurnHistory(msgs, question, call);
  }

  // ---------------------------------------------------------------- the session

  /** `init_memory`'s outcome: found the history, seeded it, or stopped for want of a context file. */
  datatype InitOutcome = AlreadySeeded | Seeded(streamed: seq<string>) | ContextStopped

  /** The `st.session_state` entries LLMMemory.py reads and writes. */
  class MemorySession {
    var messages: Option<seq<Message>>
    var totalTokens: Option<nat>
    var cost: Option<real>
    var profile: Option<UserDetails>
    var lastException: Option<ErrorKind>

    /** A new browser session: nothing stored. */
    constructor ()
      ensures messages == None && totalTokens == None && cost == None
      ensures profile == None && lastException == None
    {
      messages, totalTokens, cost, profile, lastException := None, None, None, None, None;
    }

    /**
     * `init_memory`: when `messages` is missing or None, the three seed messages are stored and
     * the two assistant ones are revealed in turn. A missing context file stops the script before
     * the list is assigned.
     */
    method InitMemory(context: Utils.ContextFile, hour: int) returns (outcome: InitOutcome)
      requires 0 <= hour < 24
      modifies this
      ensures old(messages).Some? ==> messages == old(messages) && outcome == AlreadySeeded
      ensures old(messages).None? && !context.present ==> messages == None && outcome == ContextStopped
      ensures old(messages).None? && context.present ==>
                && messages == Some(SeedHistory(SystemPromptMessage(context).value, WelcomeMsg(hour)))
                && outcome == Seeded([WelcomeMsg(hour), IntroQuestion])
      ensures totalTokens == old(totalTokens) && cost == old(cost)
      ensures profile == old(profile) && lastException == old(lastException)
    {
      outcome := StoreSeed(SystemPromptMessage(context), WelcomeMsg(hour));
    }

    /**
     * The body of `init_memory` once `get_system_prompt_message()` has given `system` (None when
     * it stopped the script) and the welcome f-string has given `welcome`.
     */
    method StoreSeed(system: Option<string>, welcome: string) returns (outcome: InitOutcome)
      modifies this
      ensures old(messages).Some? ==> messages == old(messages) && outcome == AlreadySeeded
      ensures old(messages).None? && system.None? ==> messages == None && outcome == ContextStopped
      ensures old(messages).None? && system.Some? ==>
                messages == Some(SeedHistory(system.value, welcome)) && outcome == Seeded([welcome, IntroQuestion])
      ensures totalTokens == old(totalTokens) && cost == old(cost)
      ensures profile == old(profile) && lastException == old(lastException)
    {
      if messages.Some? {
        return AlreadySeeded;
      }
      if system.None? {
        return ContextStopped;
      }
      var history := SeedHistory(system.value, welcome);
      messages := Some(history);
      // Each assistant message after the system prompt is revealed in turn.
      var streamed: seq<string> := [];
      var i := 1;
      while i < |history|
        invariant 1 <= i <= |history|
        invariant streamed == seq(i - 1, j requires 0 <= j < i - 1 => history[j + 1].content)
        invariant messages == Some(history) && totalTokens == old(totalTokens) && cost == old(cost)
        invariant profile == old(profile) && lastException == old(lastException)
      {
        var text, frames := Reveal(history[i].content);
        streamed := streamed + [text];
        i := i + 1;
      }
      outcome := Seeded(streamed);
    }

    /** `actualizar_consumos`: the response's tokens and cost replace the stored ones. */
    method UpdateUsage(response: Response)
      modifies this
      ensures totalTokens == Some(response.tokens) && cost == Some(response.coste)
      ensures messages == old(messages) && profile == old(profile) && lastException == old(lastException)
    {
      totalTokens := Some(response.tokens);
      cost := Some(response.coste);
    }

    /** `mostrar_historial_memory`: every message after the first that is the user's or the assistant's, in order. */
    method ShowHistory() returns (shown: seq<Message>)
      requires messages.Some?
      ensures shown == Visible(if |messages.value| == 0 then [] else messages.value[1..])
    {
      var msgs := messages.value;
      var rest := if |msgs| == 0 then [] else msgs[1..];
      shown := [];
      var i := 0;
      while i < |rest|
        invariant 0 <= i <= |rest|
        invariant Visible(rest) == shown + Visible(rest[i..])
      {
        assert rest[i..][1..] == rest[i + 1..];
        if rest[i].role != System {
          shown := shown + [rest[i]];
        }
        i := i + 1;
      }
    }

    /**
     * `chequear_datos_usuario`: the names of the profile fields still blank, in field order;
     * KeyError when no profile is stored.
     */
    method MissingFields() returns (r: Result<seq<string>, string>)
      ensures profile.None? ==> r == Failure("detalle_usuario")
      ensures profile.Some? ==> r == Success(BlankNames(Items(profile.value)))
    {
      if profile.None? {
        return Failure("detalle_usuario");
      }
      var items := Items(profile.value);
      var askFor: seq<string> := [];
      var i := 0;
      while i < |items|
        invariant 0 <= i <= |items|
        invariant BlankNames(items) == askFor + BlankNames(items[i..])
      {
        assert items[i..][1..] == items[i + 1..];
        if IsBlank(items[i].1) {
          askFor := askFor + [items[i].0];
        }
        i := i + 1;
      }
      assert items[i..] == [];
      assert askFor + BlankNames([]) == askFor;
      return Success(askFor);
    }

    /**
     * `actualizar_detalles_no_nulos`: the stored profile is rebound to its copy updated with the
     * new details' set fields; KeyError when no profile is stored.
     */
    method UpdateNonNull(newDetails: UserDetails) returns (r: Result<(), string>)
      modifies this
      ensures old(profile).None? ==> r == Failure("detalle_usuario") && profile == None
      ensures old(profile).Some? ==> r == Success(()) && profile == Some(MergeNonEmpty(old(profile).value, newDetails))
      ensures messages == old(messages) && totalTokens == old(totalTokens)
      ensures cost == old(cost) && lastException == old(lastException)
    {
      if profile.None? {
        return Failure("detalle_usuario");
      }
      var update := NonEmptyDetails(newDetails);
      profile := Some(CopyUpdate(profile.value, update));
      r := Success(());
    }

    /**
     * `get_response_with_memory(question)` as intended: the question is appended and the history
     * drawn; the reply, or ANSWER_ERROR when the call raised, is revealed and appended. Only an
     * answered turn records its usage; an error records its kind.
     */
    method GetResponseWithMemory(question: string, call: ModelOutcome) returns (result: TurnResult, shown: seq<Message>)
      modifies this
      ensures old(messages).None? ==> result == NoHistory && messages == None && shown == []
      ensures old(messages).Some? ==>
                && messages == Some(CorrectedTurn(old(messages).value, question, call).0)
                && result == CorrectedTurn(old(messages).value, question, call).1
                && shown == Visible((old(messages).value + [Message(User, question)])[1..])
      ensures old(messages).None? || call.Raised? ==> totalTokens == old(totalTokens) && cost == old(cost)
      ensures old(messages).Some? && call.Completed? ==> totalTokens == Some(call.tokens) && cost == Some(call.cost)
      ensures lastException == if old(messages).Some? && call.Raised? then Some(call.kind) else old(lastException)
      ensures profile == old(profile)
    {
      if messages.None? {
        return NoHistory, [];
      }
      messages := Some(messages.value + [Message(User, question)]);
      shown := ShowHistory();
      match call
      case Completed(text, tokens, c) =>
        var streamed, frames := Reveal(text);
        messages := Some(messages.value + [Message(Assistant, text)]);
        var response := Response(streamed, tokens, c);
        UpdateUsage(response);
        result := Answered(response);
      case Raised(kind) =>
        lastException := Some(kind);
        messages := Some(messages.value + [Message(Assistant, AnswerError)]);
        if kind == Authentication {
          result := Halted;
        } else {
          var streamed, frames := Reveal(AnswerError);
          result := Fallback(streamed);
        }
    }
  }

  /** A seeded history starts with the system prompt; the user sees welcome and question, in that order. */
  lemma SeedHistoryShown(system: string, welcome: string)
    ensures Visible(SeedHistory(system, welcome)[1..]) == [Message(Assistant, welcome), Message(Assistant, IntroQuestion)]
  {
    var h := SeedHistory(system, welcome)[1..];
    assert h[1..][1..] == [];
    assert Visible(h[1..]) == [Message(Assistant, IntroQuestion)] + Visible([]);
  }
}
