/**
  The chat-turn controller `AndreaApp`: the transcript of messages, the typing
  flag, the text in the input field, the keyword table that picks a reply,
  and the plain-text export of the transcript.

  A turn's delayed reply is collapsed into the same call (its time is the
  parameter `replyTime`); the ghost `log` records, in order, every effect a
  call has, so that the order of a turn's steps can be stated.
 */
module Chat {
  import opened Wrappers
  import opened JsHost
  import Auth

  /** A point in time, as `new Date()` would give it. */
  type Time = nat

  datatype Sender = FromUser | FromAi

  datatype Message = Message(sender: Sender, content: string, timestamp: Time)

  /** The effects a call can have, in the order they happen. */
  datatype Event =
    | InputCleared
    | Pushed(m: Message)
    | TypingShown
    | Counted(limitModal: bool)
    | TypingHidden
    | Cleared

  // ---------------------------------------------------------------------
  // Replies

  /** The keyword table, in the order `Object.entries` visits it. */
  const Responses: seq<(string, string)> := [
    ("quién te creó", "Fui creada por IsaDetaSeek como un sistema neural avanzado."),
    ("hola", "¡Hola! Soy AndreaAI, tu asistente neural. ¿En qué puedo ayudarte?"),
    ("ayuda", "Puedo ayudarte con: análisis de datos, mapas mentales, generación de contenido y más."),
    ("preset", "Puedes usar /preset [nombre] para cambiar mi personalidad."),
    ("clear", "Usa /clear para limpiar el chat."),
    ("export", "Usa /export [formato] para exportar la conversación.")
  ]

  const DefaultReplyPrefix := "He procesado tu mensaje: \""
  const DefaultReplySuffix :=
    "\". Como sistema neural, puedo ayudarte con análisis, mapas mentales, generación de contenido y más. ¿Te gustaría que profundice en algún tema específico?"

  /** The reply when no key matches: the message is quoted verbatim. */
  function DefaultReply(message: string): (r: string)
    ensures OccursAt(r, message, |DefaultReplyPrefix|)
    ensures r[..|DefaultReplyPrefix|] == DefaultReplyPrefix
  {
    DefaultReplyPrefix + message + DefaultReplySuffix
  }

  /** The reply of the first entry whose key occurs in `lower`, if any. */
  function FirstMatch(table: seq<(string, string)>, lower: string): Option<string> {
    if table == [] then None
    else if Contains(lower, table[0].0) then Some(table[0].1)
    else FirstMatch(table[1..], lower)
  }

  /** `generateResponse(message)` as a value. */
  function ResponseFor(message: string): string {
    var hit := FirstMatch(Responses, ToLower(message));
    if hit.Some? then hit.value else DefaultReply(message)
  }

  /** `FirstMatch` answers with entry `i` exactly when key `i` occurs and no
      earlier key does, and answers nothing exactly when no key occurs. */
  lemma {:induction false} FirstMatchIsFirst(table: seq<(string, string)>, lower: string)
    ensures FirstMatch(table, lower).None? <==> forall j :: 0 <= j < |table| ==> !Contains(lower, table[j].0)
    ensures forall i :: 0 <= i < |table| && Contains(lower, table[i].0)
                        && (forall j :: 0 <= j < i ==> !Contains(lower, table[j].0))
                        ==> FirstMatch(table, lower) == Some(table[i].1)
  {
    if table != [] {
      FirstMatchIsFirst(table[1..], lower);
      forall i | 0 < i < |table| && Contains(lower, table[i].0)
                 && (forall j :: 0 <= j < i ==> !Contains(lower, table[j].0))
        ensures FirstMatch(table, lower) == Some(table[i].1)
      {
        assert table[1..][i - 1] == table[i];
        assert forall j :: 0 <= j < i - 1 ==> table[1..][j] == table[j + 1];
      }
      if FirstMatch(table, lower).None? {
        forall j | 0 <= j < |table|
          ensures !Contains(lower, table[j].0)
        {
          if j > 0 { assert table[1..][j - 1] == table[j]; }
        }
      }
      if forall j :: 0 <= j < |table| ==> !Contains(lower, table[j].0) {
        assert forall j :: 0 <= j < |table| - 1 ==> table[1..][j] == table[j + 1];
      }
    }
  }

  /** What `generateResponse` promises: the reply of the first key, in table
      order, found in the lower-cased message, or else the default reply. */
  lemma ResponseForIsFirstMatch(message: string)
    ensures (forall j :: 0 <= j < |Responses| ==> !Contains(ToLower(message), Responses[j].0))
            ==> ResponseFor(message) == DefaultReply(message)
    ensures forall i :: 0 <= i < |Responses| && Contains(ToLower(message), Responses[i].0)
                        && (forall j :: 0 <= j < i ==> !Contains(ToLower(message), Responses[j].0))
                        ==> ResponseFor(message) == Responses[i].1
  {
    FirstMatchIsFirst(Responses, ToLower(message));
  }

  /** Upper-case letters do not hide a key: "HOLA" gets the greeting. */
  lemma GreetingIgnoresCase()
    ensures ResponseFor("HOLA") == Responses[1].1
  {
    assert ToLower("HOLA") == "hola";
    assert !Contains("hola", Responses[0].0);
    assert OccursAt("hola", Responses[1].0, 0);
  }

  // ---------------------------------------------------------------------
  // Export

  function SenderLabel(s: Sender): string {
    if s == FromUser then "Usuario" else "AndreaAI"
  }

  /** One entry of the export, `[time] Usuario|AndreaAI: content`, with the
      host's time formatting as the parameter `fmt`. */
  function Entry(m: Message, fmt: Time -> string): string {
    "[" + fmt(m.timestamp) + "] " + SenderLabel(m.sender) + ": " + m.content
  }

  function Entries(msgs: seq<Message>, fmt: Time -> string): (r: seq<string>)
    ensures |r| == |msgs|
    ensures forall i :: 0 <= i < |msgs| ==> r[i] == Entry(msgs[i], fmt)
  {
    if msgs == [] then [] else [Entry(msgs[0], fmt)] + Entries(msgs[1..], fmt)
  }

  /** `parts.join(sep)`. */
  function Join(parts: seq<string>, sep: string): string {
    if parts == [] then ""
    else if |parts| == 1 then parts[0]
    else parts[0] + sep + Join(parts[1..], sep)
  }

  /** The text `exportChat` puts in the file. */
  function ExportText(msgs: seq<Message>, fmt: Time -> string): string {
    Join(Entries(msgs, fmt), "\n\n")
  }

  /** Joining one more part adds the separator and that part at the end. */
  lemma {:induction false} JoinSnoc(parts: seq<string>, p: string, sep: string)
    requires parts != []
    ensures Join(parts + [p], sep) == Join(parts, sep) + sep + p
  {
    if |parts| > 1 {
      JoinSnoc(parts[1..], p, sep);
      assert (parts + [p])[1..] == parts[1..] + [p];
    } else {
      assert (parts + [p])[1..] == [p];
    }
  }

  /** Every part occurs in the joined text, after the parts before it and the
      separators between them. */
  lemma {:induction false} JoinHoldsParts(parts: seq<string>, sep: string, i: int)
    requires 0 <= i < |parts|
    ensures OccursAt(Join(parts, sep), parts[i], |Join(parts[..i], sep)| + (if i == 0 then 0 else |sep|))
  {
    if i == 0 {
      assert parts[..0] == [];
      if |parts| > 1 {
        assert Join(parts, sep)[..|parts[0]|] == parts[0];
      }
    } else {
      JoinHoldsParts(parts[1..], sep, i - 1);
      assert parts[1..][i - 1] == parts[i];
      var rest := Join(parts[1..], sep);
      var k := |Join(parts[1..][..i - 1], sep)| + (if i - 1 == 0 then 0 else |sep|);
      assert rest[k..k + |parts[i]|] == parts[i];
      var head := parts[0] + sep;
      assert Join(parts, sep) == head + rest;
      assert Join(parts, sep)[|head| + k..|head| + k + |parts[i]|] == rest[k..k + |parts[i]|];
      if i == 1 {
        assert parts[..1] == [parts[0]];
      } else {
        assert parts[..i] == [parts[0]] + parts[1..][..i - 1];
        assert Join(parts[..i], sep) == parts[0] + sep + Join(parts[1..][..i - 1], sep);
      }
    }
  }

  /** Exporting one more message appends a blank line and its entry. */
  lemma ExportAppend(msgs: seq<Message>, m: Message, fmt: Time -> string)
    requires msgs != []
    ensures ExportText(msgs + [m], fmt) == ExportText(msgs, fmt) + "\n\n" + Entry(m, fmt)
  {
    assert Entries(msgs + [m], fmt) == Entries(msgs, fmt) + [Entry(m, fmt)];
    JoinSnoc(Entries(msgs, fmt), Entry(m, fmt), "\n\n");
  }

  /** Every message's entry occurs in the export. */
  lemma ExportHoldsEveryEntry(msgs: seq<Message>, fmt: Time -> string, i: int)
    requires 0 <= i < |msgs|
    ensures Contains(ExportText(msgs, fmt), Entry(msgs[i], fmt))
  {
    var parts := Entries(msgs, fmt);
    JoinHoldsParts(parts, "\n\n", i);
  }

  // ---------------------------------------------------------------------
  // Upsell

  /** The reply `sendMessage` appends when the quota is used up. */
  const AppUpsell :=
    "\n"
    + "                🔒 **Límite alcanzado**\n"
    + "                \n"
    + "                Has usado tus conversaciones gratuitas. \n"
    + "                **Regístrate para obtener acceso ilimitado:**\n"
    + "                \n"
    + "                • Conversaciones ilimitadas\n"
    + "                • Exportación avanzada\n"
    + "                • Modelos IA premium\n"
    + "                • Historial ilimitado\n"
    + "                \n"
    + "                Haz clic en \"Iniciar sesión\" en la barra lateral para continuar.\n"
    + "            "

  // ---------------------------------------------------------------------
  // The controller

  class AndreaApp {
    var messages: seq<Message>
    var isTyping: bool
    /** The text in the input field. */
    var input: string
    /** Whether the page has the chat container. */
    const hasChatBox: bool
    /** `window.authSystem`, when one exists. */
    const auth: Auth.AuthSystem?
    /** Whether the send handler is the wrapper the auth layer installs. */
    var wrapped: bool
    ghost var log: seq<Event>

    constructor (chatBox: bool, authSystem: Auth.AuthSystem?)
      ensures messages == [] && !isTyping && input == "" && !wrapped && log == []
      ensures hasChatBox == chatBox && auth == authSystem
    {
      messages := [];
      isTyping := false;
      input := "";
      hasChatBox := chatBox;
      auth := authSystem;
      wrapped := false;
      log := [];
    }

    /** The send handler is only wrapped when there is an auth object. */
    predicate Valid()
      reads this
    {
      wrapped ==> auth != null
    }

    /** What an append records: one message, or nothing without a chat container. */
    function Recorded(m: Message): (r: seq<Message>)
      reads this
      ensures |r| <= 1 && (r != [] <==> hasChatBox) && (r != [] ==> r[0] == m)
    {
      if hasChatBox then [m] else []
    }

    function PushedEvents(m: Message): (r: seq<Event>)
      reads this
      ensures |r| <= 1 && (r != [] <==> hasChatBox) && (r != [] ==> r[0] == Pushed(m))
    {
      if hasChatBox then [Pushed(m)] else []
    }

    method AppendMessage(sender: Sender, content: string, now: Time)
      modifies this`messages, this`log
      ensures messages == old(messages) + Recorded(Message(sender, content, now))
      ensures log == old(log) + PushedEvents(Message(sender, content, now))
    {
      if !hasChatBox {
        return;
      }
      messages := messages + [Message(sender, content, now)];
      log := log + [Pushed(Message(sender, content, now))];
    }

    method ShowTypingIndicator()
      modifies this`isTyping, this`log
      ensures isTyping == (hasChatBox || old(isTyping))
      ensures log == old(log) + (if hasChatBox then [TypingShown] else [])
    {
      if !hasChatBox {
        return;
      }
      isTyping := true;
      log := log + [TypingShown];
    }

    method HideTypingIndicator()
      modifies this`isTyping, this`log
      ensures !isTyping
      ensures log == old(log) + [TypingHidden]
    {
      isTyping := false;
      log := log + [TypingHidden];
    }

    method ClearChat()
      modifies this`messages, this`log
      ensures hasChatBox ==> messages == [] && log == old(log) + [Cleared]
      ensures !hasChatBox ==> messages == old(messages) && log == old(log)
    {
      if !hasChatBox {
        return;
      }
      messages := [];
      log := log + [Cleared];
    }

    /** The export's text, or nothing when there are no messages. */
    method ExportChat(fmt: Time -> string) returns (text: Option<string>)
      ensures text.None? <==> messages == []
      ensures text.Some? ==> text.value == ExportText(messages, fmt)
      ensures forall i :: 0 <= i < |messages| && text.Some? ==> Contains(text.value, Entry(messages[i], fmt))
    {
      if |messages| == 0 {
        return None;
      }
      forall i | 0 <= i < |messages|
        ensures Contains(ExportText(messages, fmt), Entry(messages[i], fmt))
      {
        ExportHoldsEveryEntry(messages, fmt, i);
      }
      text := Some(ExportText(messages, fmt));
    }

    /** `generateResponse`: walks the keyword table in order. */
    method GenerateResponse(message: string) returns (reply: string)
      ensures reply == ResponseFor(message)
    {
      var lower := ToLower(message);
      var i := 0;
      while i < |Responses|
        invariant 0 <= i <= |Responses|
        invariant FirstMatch(Responses, lower) == FirstMatch(Responses[i..], lower)
      {
        var (key, response) := Responses[i];
        assert Responses[i..][1..] == Responses[i + 1..];
        if Contains(lower, key) {
          return response;
        }
        i := i + 1;
      }
      reply := DefaultReply(message);
    }

    /**
      `sendMessage`: an input that trims to nothing does nothing; a refused
      turn adds the upsell reply and leaves the input; an allowed turn clears
      the input, records the message, counts the turn once and records the
      reply.
     */
    method SendMessage(now: Time, replyTime: Time, step: Auth.Step)
      requires Valid()
      modifies this`messages, this`isTyping, this`input, this`log, auth
      ensures Trim(old(input)) == [] ==>
        && messages == old(messages) && input == old(input) && isTyping == old(isTyping) && log == old(log)
        && (auth != null ==> auth.State() == old(auth.State()))
      ensures Trim(old(input)) != [] && auth != null && !old(auth.CanChat()) ==>
        && messages == old(messages) + Recorded(Message(FromAi, AppUpsell, now))
        && log == old(log) + PushedEvents(Message(FromAi, AppUpsell, now))
        && input == old(input) && isTyping == old(isTyping)
        && auth.State() == old(auth.State())
      ensures Trim(old(input)) != [] && (auth == null || old(auth.CanChat())) ==>
        var msg := Trim(old(input));
        && input == ""
        && messages == old(messages) + Recorded(Message(FromUser, msg, now))
                                     + Recorded(Message(FromAi, ResponseFor(msg), replyTime))
        && !isTyping
        && (auth != null ==> auth.State() == Auth.IncrementStep(old(auth.State()), step).0)
        && log == old(log) + [InputCleared] + PushedEvents(Message(FromUser, msg, now))
                  + (if hasChatBox then [TypingShown] else [])
                  + (if auth != null then [Counted(Auth.IncrementStep(old(auth.State()), step).1)] else [])
                  + [TypingHidden] + PushedEvents(Message(FromAi, ResponseFor(msg), replyTime))
    {
      var message := Trim(input);
      if message == [] {
        return;
      }
      if auth != null && !auth.CanChat() {
        AppendMessage(FromAi, AppUpsell, now);
        return;
      }
      RunTurn(message, now, replyTime, step);
    }

    /** The allowed part of a turn, from clearing the input to the reply. */
    method RunTurn(message: string, now: Time, replyTime: Time, step: Auth.Step)
      requires Valid()
      modifies this`messages, this`isTyping, this`input, this`log, auth
      ensures input == ""
      ensures messages == old(messages) + Recorded(Message(FromUser, message, now))
                                        + Recorded(Message(FromAi, ResponseFor(message), replyTime))
      ensures !isTyping
      ensures auth != null ==> auth.State() == Auth.IncrementStep(old(auth.State()), step).0
      ensures log == old(log) + [InputCleared] + PushedEvents(Message(FromUser, message, now))
                  + (if hasChatBox then [TypingShown] else [])
                  + (if auth != null then [Counted(Auth.IncrementStep(old(auth.State()), step).1)] else [])
                  + [TypingHidden] + PushedEvents(Message(FromAi, ResponseFor(message), replyTime))
    {
      input := "";
      log := log + [InputCleared];
      AppendMessage(FromUser, message, now);
      ShowTypingIndicator();
      ghost var shown, logged := messages, log;
      ghost var counted: seq<Event> := [];
      if auth != null {
        var limitModal := auth.IncrementConversationCount(step);
        counted := [Counted(limitModal)];
        log := log + counted;
      } else {
        assert logged + counted == logged;
      }
      assert messages == shown && log == logged + counted;
      HideTypingIndicator();
      var reply := GenerateResponse(message);
      AppendMessage(FromAi, reply, replyTime);
    }
  }
}
