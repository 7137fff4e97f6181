/** Model of backend/bot.py: greeting, welcome message, prompt template, pricing and model choice. */
module Bot {
  import opened Wrappers
  import Utils

  // ---------------------------------------------------------------- constants

  /** `MODELO`, the model every session starts with. */
  const Modelo := "gpt-3.5-turbo-1106"

  /** `BOT_NAME`. */
  const BotName := "Renardo"

  // ---------------------------------------------------------------- greeting

  /** A Python `range(lo, hi)` of hours: lo <= h < hi. */
  datatype HourRange = HourRange(lo: int, hi: int)

  predicate InRange(r: HourRange, h: int) {
    r.lo <= h < r.hi
  }

  type GreetingTable = seq<(HourRange, string)>

  const BuenasNoches := "¡Buenas noches! "
  const BuenosDias := "¡Buenos días! "
  const MuyBuenas := "¡Muy buenas! "
  const BuenasTardes := "¡Buenas tardes! "

  /** `SALUDO`, in the insertion order its keys are iterated in. */
  const Saludo: GreetingTable := [
    (HourRange(0, 7), BuenasNoches),
    (HourRange(7, 14), BuenosDias),
    (HourRange(14, 17), MuyBuenas),
    (HourRange(17, 20), BuenasTardes),
    (HourRange(20, 24), BuenasNoches)
  ]

  /**
   * The search loop of `custom_saludo`: the text of the first range that holds h, or None when
   * the loop falls through (Python then returns None).
   */
  function FirstMatch(table: GreetingTable, h: int): (r: Option<string>)
    ensures r.None? <==> forall i :: 0 <= i < |table| ==> !InRange(table[i].0, h)
    ensures r.Some? ==> exists i :: 0 <= i < |table| && InRange(table[i].0, h) && r.value == table[i].1
                                    && forall j :: 0 <= j < i ==> !InRange(table[j].0, h)
  {
    if table == [] then None
    else if InRange(table[0].0, h) then Some(table[0].1)
    else
      var r := FirstMatch(table[1..], h);
      assert forall i :: 1 <= i < |table| ==> table[i] == table[1..][i - 1];
      r
  }

  /** Every hour of the day lies in exactly one range of `SALUDO`: no gap and no overlap. */
  lemma SaludoPartition(h: int)
    requires 0 <= h < 24
    ensures exists i :: 0 <= i < |Saludo| && InRange(Saludo[i].0, h)
    ensures forall i, j :: 0 <= i < |Saludo| && 0 <= j < |Saludo| && InRange(Saludo[i].0, h) && InRange(Saludo[j].0, h) ==> i == j
  {
    if h < 7 { assert InRange(Saludo[0].0, h); }
    else if h < 14 { assert InRange(Saludo[1].0, h); }
    else if h < 17 { assert InRange(Saludo[2].0, h); }
    else if h < 20 { assert InRange(Saludo[3].0, h); }
    else { assert InRange(Saludo[4].0, h); }
  }

  /** No range of `SALUDO` holds an hour outside 0..23. */
  lemma SaludoOnlyDayHours(h: int)
    requires h < 0 || 24 <= h
    ensures FirstMatch(Saludo, h).None?
  {
  }

  /** `custom_saludo` for the local hour of the day (`datetime.now(...).hour`, always 0..23). */
  function CustomGreeting(hour: int): (g: string)
    requires 0 <= hour < 24
    ensures g in {BuenasNoches, BuenosDias, MuyBuenas, BuenasTardes}
  {
    SaludoPartition(hour);
    FirstMatch(Saludo, hour).value
  }

  /** The greeting for each part of the day, stated independently of the table search. */
  lemma GreetingByHour(hour: int)
    requires 0 <= hour < 24
    ensures CustomGreeting(hour) ==
      if hour < 7 || 20 <= hour then BuenasNoches
      else if hour < 14 then BuenosDias
      else if hour < 17 then MuyBuenas
      else BuenasTardes
  {
    var r := FirstMatch(Saludo, hour);
    SaludoPartition(hour);
    var i :| 0 <= i < |Saludo| && InRange(Saludo[i].0, hour) && r.value == Saludo[i].1
             && forall j :: 0 <= j < i ==> !InRange(Saludo[j].0, hour);
    if hour < 7 { assert i == 0; }
    else if hour < 14 { assert i == 1; }
    else if hour < 17 { assert i == 2; }
    else if hour < 20 { assert i == 3; }
    else { assert i == 4; }
  }

  const WelcomeMiddle := " Mi nombre es "
  const WelcomeLine0 := " 😊.                    \n"
  const WelcomeLine1 := "Soy el asistente personal de Sergio y puedo responderte a cualquier pregunta que tengas sobre su curriculum.                    \n"
  const WelcomeLine2 := "Si lo deseas también te lo puedes descargar desde la barra lateral izquierda."
  const WelcomeTail := WelcomeLine0 + WelcomeLine1 + WelcomeLine2

  /** `get_welcome_msg`: the greeting, then the bot's name in the introduction sentence. */
  function WelcomeMsg(hour: int): (msg: string)
    requires 0 <= hour < 24
    ensures |CustomGreeting(hour)| <= |msg| && msg[..|CustomGreeting(hour)|] == CustomGreeting(hour)
    ensures var k := |CustomGreeting(hour)| + |WelcomeMiddle|;
            k + |BotName| <= |msg| && msg[k..k + |BotName|] == BotName
  {
    var g := CustomGreeting(hour);
    var msg := g + WelcomeMiddle + BotName + WelcomeTail;
    assert msg[..|g|] == g;
    assert msg[|g| + |WelcomeMiddle|..|g| + |WelcomeMiddle| + |BotName|] == BotName;
    msg
  }

  // ---------------------------------------------------------------- prompt template

  /** A piece of a format string: literal text, or a `{name}` replacement field. */
  datatype Segment = Text(text: string) | Field(name: string)

  /** A format string, split at its replacement fields. */
  type Template = seq<Segment>

  /** `str.format` raises `KeyError` for a field that no keyword argument supplies. */
  datatype FormatError = MissingKey(name: string)

  /** The names of a template's replacement fields, left to right. */
  function FieldNames(t: Template): (names: seq<string>)
    ensures forall n :: n in names <==> Field(n) in t
  {
    if t == [] then []
    else
      var rest := FieldNames(t[1..]);
      assert forall s :: s in t <==> s == t[0] || s in t[1..];
      match t[0]
      case Text(_) => rest
      case Field(n) => [n] + rest
  }

  /** The literal text of a template whose every field has been left out. */
  function Literal(t: Template): string {
    if t == [] then "" else (if t[0].Text? then t[0].text else "") + Literal(t[1..])
  }

  /**
   * `format_prompt(prompt, **kwargs)`: each field is replaced by its keyword argument, literal
   * text is copied, and the first field (left to right) without an argument raises KeyError.
   */
  function FormatPrompt(t: Template, args: map<string, string>): (r: Result<string, FormatError>)
  {
    if t == [] then Success("")
    else
      var rest := FormatPrompt(t[1..], args);
      match t[0]
      case Text(s) => if rest.Success? then Success(s + rest.value) else rest
      case Field(n) =>
        if n !in args then Failure(MissingKey(n))
        else if rest.Success? then Success(args[n] + rest.value) else rest
  }

  /**
   * Formatting succeeds exactly when every field has an argument; a failure names a field that
   * has none; a template without fields formats to its own text.
   */
  lemma {:induction false} FormatOutcome(t: Template, args: map<string, string>)
    ensures FormatPrompt(t, args).Success? <==> forall n :: n in FieldNames(t) ==> n in args
    ensures FormatPrompt(t, args).Failure? ==>
              FormatPrompt(t, args).error.name in FieldNames(t) && FormatPrompt(t, args).error.name !in args
    ensures FormatPrompt(t, args).Success? && FieldNames(t) == [] ==> FormatPrompt(t, args).value == Literal(t)
  {
    if t != [] {
      FormatOutcome(t[1..], args);
      if t[0].Text? {
        assert FieldNames(t) == FieldNames(t[1..]);
      } else {
        assert FieldNames(t) == [t[0].name] + FieldNames(t[1..]);
      }
    }
  }

  /** Formatting distributes over concatenation of templates: the text of each part is kept in place. */
  lemma {:induction false} FormatAppend(a: Template, b: Template, args: map<string, string>)
    requires FormatPrompt(a, args).Success? && FormatPrompt(b, args).Success?
    ensures FormatPrompt(a + b, args) == Success(FormatPrompt(a, args).value + FormatPrompt(b, args).value)
  {
    if a == [] {
      assert a + b == b;
      assert "" + FormatPrompt(b, args).value == FormatPrompt(b, args).value;
    } else {
      assert (a + b)[0] == a[0] && (a + b)[1..] == a[1..] + b;
      FormatAppend(a[1..], b, args);
      var x, y := FormatPrompt(a[1..], args).value, FormatPrompt(b, args).value;
      match a[0]
      case Text(s) => assert s + (x + y) == (s + x) + y;
      case Field(n) => assert args[n] + (x + y) == (args[n] + x) + y;
    }
  }

  /** Keyword arguments that no field names do not change the result (Python ignores them). */
  lemma {:induction false} FormatIgnoresUnused(t: Template, args: map<string, string>, more: map<string, string>)
    requires forall n :: n in FieldNames(t) ==> (n in args <==> n in more) && (n in args ==> args[n] == more[n])
    ensures FormatPrompt(t, args) == FormatPrompt(t, more)
  {
    if t != [] {
      assert forall n :: n in FieldNames(t[1..]) ==> n in FieldNames(t);
      FormatIgnoresUnused(t[1..], args, more);
    }
  }

  const HeadLine0 := "\n"
  const HeadLine1 := "Vamos a pensar paso a paso.\n"
  const HeadLine2 := "Eres un asistente muy útil, simpático y educado especializado en proporcionar información sobre Sergio.\n"
  const HeadLine3 := "Tu nombres es "
  const PromptHead := HeadLine0 + HeadLine1 + HeadLine2 + HeadLine3
  const BodyLine0 := ".\n"
  const BodyLine1 := "Tus objetivos son:\n"
  const BodyLine2 := "- Proporcionar información clara y concisa sobre el CV de Sergio cogida del contexto proporcionado.\n"
  const BodyLine3 := "NO saludes al usuario.\n"
  const BodyLine4 := "Puedes expresar de otro modo las frases del contexto.\n"
  const BodyLine5 := "Intenta siempre responder a la pregunta de manera amable.\n"
  const BodyLine6 := "Responde en el mismo idioma que el usuario.\n"
  const BodyLine7 := "Recuerda al usuario de vez en cuando que puede descargarse el CV de Sergio desde la barra lateral izquierda.\n"
  const BodyLine8 := "Recuerda que eres un asistente especializado en responder sobre la vida y la carrera de Sergio.\n"
  const BodyLine9 := "Recuerda que eres también un amable chatbot teniendo una conversación con un humano y respondiendo sus preguntas en base al contexto.\n"
  const BodyLine10 := "Utiliza el nombre del usuario en tus respuestas.\n"
  const BodyLine11 := "NO uses el apellido del usuario. NO uses el nombre completo del usuario, usa sólo su nombre.\n"
  const BodyLine12 := "\n"
  const BodyLine13 := "% CONTEXTO\n"
  const PromptBody := BodyLine0 + BodyLine1 + BodyLine2 + BodyLine3 + BodyLine4 + BodyLine5 + BodyLine6 + BodyLine7 + BodyLine8 + BodyLine9 + BodyLine10 + BodyLine11 + BodyLine12 + BodyLine13

  /** `PROMPT`, split at its fields `{nombre_bot}` and `{context}`. */
  const Prompt: Template := [Text(PromptHead), Field("nombre_bot"), Text(PromptBody), Field("context"), Text("\n")]

  /** Formatting a two-field template of this shape puts each argument in its place and keeps the text around them. */
  lemma FormatTwoFields(head: string, f1: string, body: string, f2: string, tail: string, args: map<string, string>)
    requires f1 in args && f2 in args
    ensures FormatPrompt([Text(head), Field(f1), Text(body), Field(f2), Text(tail)], args)
         == Success(head + args[f1] + body + args[f2] + tail)
  {
    var t := [Text(head), Field(f1), Text(body), Field(f2), Text(tail)];
    assert t[4..][1..] == [];
    assert tail + "" == tail;
    assert FormatPrompt(t[4..], args) == Success(tail);
    assert t[3..][1..] == t[4..];
    assert FormatPrompt(t[3..], args) == Success(args[f2] + tail);
    assert t[2..][1..] == t[3..];
    assert FormatPrompt(t[2..], args) == Success(body + (args[f2] + tail));
    assert t[1..][1..] == t[2..];
    assert FormatPrompt(t[1..], args) == Success(args[f1] + (body + (args[f2] + tail)));
    assert FormatPrompt(t, args) == Success(head + (args[f1] + (body + (args[f2] + tail))));
    assert head + (args[f1] + (body + (args[f2] + tail))) == head + args[f1] + body + args[f2] + tail;
  }

  /**
   * `build_system_prompt`: the context is loaded first (FileNotFoundError when absent), then
   * `{context}` and `{nombre_bot}` are substituted into `PROMPT` and nothing else changes.
   */
  function BuildSystemPrompt(file: Utils.ContextFile): (r: Result<string, Utils.FileError>)
    ensures r.Success? <==> file.present
    ensures r.Failure? ==> r.error == Utils.FileNotFound(Utils.ContextCvPath)
    ensures r.Success? ==> r.value == PromptHead + BotName + PromptBody + file.text + "\n"
  {
    match Utils.GetContext(file)
    case Failure(e) => Failure(e)
    case Success(context) =>
      var args := map["context" := context, "nombre_bot" := BotName];
      var formatted := FormatPrompt(Prompt, args);
      FormatTwoFields(PromptHead, "nombre_bot", PromptBody, "context", "\n", args);
      // Both fields of the template are supplied, so `format` cannot raise here.
      Success(formatted.value)
  }

  // ---------------------------------------------------------------- pricing

  /** `pricing`: cost per token of each known model (prices in exact rationals). */
  const Pricing: map<string, real> := map[
    "gpt-3.5-turbo-1106" := 0.000002,
    "gpt-3.5-turbo-instruct" := 0.000002,
    "gpt-4-32k" := 0.00012,
    "gpt-4" := 0.00006
  ]

  /** Every listed price is positive. */
  lemma PricesPositive()
    ensures forall m :: m in Pricing ==> Pricing[m] > 0.0
  {
  }

  /** `calculate_cost`: the token count times the model's price; an unknown model costs 0. */
  function CalculateCost(tokens: nat, model: string): (c: real)
    ensures model in Pricing ==> c == tokens as real * Pricing[model]
    ensures model !in Pricing ==> c == 0.0
    ensures c >= 0.0
  {
    tokens as real * (if model in Pricing then Pricing[model] else 0.0)
  }

  /** More tokens never cost less, for any model. */
  lemma CostMonotone(t1: nat, t2: nat, model: string)
    requires t1 <= t2
    ensures CalculateCost(t1, model) <= CalculateCost(t2, model)
  {
    var p := if model in Pricing then Pricing[model] else 0.0;
    assert p >= 0.0;
    assert CalculateCost(t2, model) - CalculateCost(t1, model) == (t2 - t1) as real * p;
  }

  /** Pricing is additive in tokens, so costs accumulated turn by turn equal the cost of the sum. */
  lemma CostAdditive(t1: nat, t2: nat, model: string)
    ensures CalculateCost(t1 + t2, model) == CalculateCost(t1, model) + CalculateCost(t2, model)
  {
  }

  /** `get_model`: the default model, which is in the pricing table. */
  function GetModel(): (m: string)
    ensures m in Pricing
  {
    Modelo
  }

  /** The default model never prices a non-empty exchange at zero. */
  lemma DefaultModelIsPriced(tokens: nat)
    requires tokens > 0
    ensures CalculateCost(tokens, GetModel()) > 0.0
  {
    assert Pricing[GetModel()] > 0.0;
  }
}
