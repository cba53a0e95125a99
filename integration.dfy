/**
  The glue the auth layer installs on the chat controller: once both objects
  exist, `integrateAuthWithApp` replaces the app's send handler with a wrapper
  that checks the quota, counts the turn, and then runs the original handler,
  which checks and counts again.
 */
module Integration {
  import opened Wrappers
  import opened JsHost
  import Auth
  import opened Chat

  /** The reply the wrapper appends when the quota is used up. */
  const WrapperUpsell :=
    "\n"
    + "                    🔒 **Límite alcanzado**\n"
    + "                    \n"
    + "                    Has usado tus 3 conversaciones gratuitas. \n"
    + "                    **Regístrate para obtener acceso ilimitado:**\n"
    + "                    \n"
    + "                    • Conversaciones ilimitadas\n"
    + "                    • Exportación avanzada\n"
    + "                    • Modelos IA premium\n"
    + "                    • Historial ilimitado\n"
    + "                    \n"
    + "                    Haz clic en \"Iniciar sesión\" en la barra lateral para continuar.\n"
    + "                "

  /** `integrateAuthWithApp()`: wraps the send handler when both the app and
      the auth object exist, and does nothing otherwise. */
  method IntegrateAuthWithApp(app: AndreaApp?)
    requires app != null ==> app.Valid()
    modifies app
    ensures app != null ==> app.Valid()
    ensures app != null ==> app.wrapped == (old(app.wrapped) || app.auth != null)
    ensures app != null ==>
      app.messages == old(app.messages) && app.input == old(app.input)
      && app.isTyping == old(app.isTyping) && app.log == old(app.log)
  {
    if app != null && app.auth != null {
      app.wrapped := true;
    }
  }

  /**
    The wrapped send handler. It checks the quota before anything else (an
    empty input included), counts the turn, and then runs the original
    handler, which trims, checks the quota on the new count and counts again.
   */
  method WrappedSendMessage(app: AndreaApp, now: Time, replyTime: Time, first: Auth.Step, second: Auth.Step)
    requires app.Valid() && app.auth != null
    modifies app`messages, app`isTyping, app`input, app`log, app.auth
    ensures !old(app.auth.CanChat()) ==>
      && app.messages == old(app.messages) + app.Recorded(Message(FromAi, WrapperUpsell, now))
      && app.log == old(app.log) + app.PushedEvents(Message(FromAi, WrapperUpsell, now))
      && app.input == old(app.input) && app.isTyping == old(app.isTyping)
      && app.auth.State() == old(app.auth.State())
    ensures old(app.auth.CanChat()) && Trim(old(app.input)) == [] ==>
      var (mid, modal) := Auth.IncrementStep(old(app.auth.State()), first);
      && app.auth.State() == mid
      && app.messages == old(app.messages) && app.input == old(app.input) && app.isTyping == old(app.isTyping)
      && app.log == old(app.log) + [Counted(modal)]
    ensures old(app.auth.CanChat()) && Trim(old(app.input)) != []
            && !Auth.Entitled(Auth.IncrementStep(old(app.auth.State()), first).0) ==>
      var (mid, modal) := Auth.IncrementStep(old(app.auth.State()), first);
      && app.auth.State() == mid
      && app.messages == old(app.messages) + app.Recorded(Message(FromAi, AppUpsell, now))
      && app.input == old(app.input) && app.isTyping == old(app.isTyping)
      && app.log == old(app.log) + [Counted(modal)] + app.PushedEvents(Message(FromAi, AppUpsell, now))
    ensures old(app.auth.CanChat()) && Trim(old(app.input)) != []
            && Auth.Entitled(Auth.IncrementStep(old(app.auth.State()), first).0) ==>
      var (mid, modal) := Auth.IncrementStep(old(app.auth.State()), first);
      var msg := Trim(old(app.input));
      && app.auth.State() == Auth.IncrementStep(mid, second).0
      && app.messages == old(app.messages) + app.Recorded(Message(FromUser, msg, now))
                                           + app.Recorded(Message(FromAi, ResponseFor(msg), replyTime))
      && app.input == "" && !app.isTyping
      && app.log == old(app.log) + [Counted(modal)] + [InputCleared]
                    + app.PushedEvents(Message(FromUser, msg, now))
                    + (if app.hasChatBox then [TypingShown] else [])
                    + [Counted(Auth.IncrementStep(mid, second).1)] + [TypingHidden]
                    + app.PushedEvents(Message(FromAi, ResponseFor(msg), replyTime))
  {
    var auth := app.auth;
    if !auth.CanChat() {
      app.AppendMessage(FromAi, WrapperUpsell, now);
      return;
    }
    ChargeThenSend(app, now, replyTime, first, second);
  }

  /** The wrapper past its check: count once, then the original handler. */
  method ChargeThenSend(app: AndreaApp, now: Time, replyTime: Time, first: Auth.Step, second: Auth.Step)
    requires app.Valid() && app.auth != null
    modifies app`messages, app`isTyping, app`input, app`log, app.auth
    ensures Trim(old(app.input)) == [] ==>
      var (mid, modal) := Auth.IncrementStep(old(app.auth.State()), first);
      && app.auth.State() == mid
      && app.messages == old(app.messages) && app.input == old(app.input) && app.isTyping == old(app.isTyping)
      && app.log == old(app.log) + [Counted(modal)]
    ensures Trim(old(app.input)) != [] && !Auth.Entitled(Auth.IncrementStep(old(app.auth.State()), first).0) ==>
      var (mid, modal) := Auth.IncrementStep(old(app.auth.State()), first);
      && app.auth.State() == mid
      && app.messages == old(app.messages) + app.Recorded(Message(FromAi, AppUpsell, now))
      && app.input == old(app.input) && app.isTyping == old(app.isTyping)
      && app.log == old(app.log) + [Counted(modal)] + app.PushedEvents(Message(FromAi, AppUpsell, now))
    ensures Trim(old(app.input)) != [] && Auth.Entitled(Auth.IncrementStep(old(app.auth.State()), first).0) ==>
      && app.auth.State() == Auth.IncrementStep(Auth.IncrementStep(old(app.auth.State()), first).0, second).0
      && app.input == "" && !app.isTyping
    ensures Trim(old(app.input)) != [] && Auth.Entitled(Auth.IncrementStep(old(app.auth.State()), first).0) ==>
      app.messages == old(app.messages) + app.Recorded(Message(FromUser, Trim(old(app.input)), now))
                      + app.Recorded(Message(FromAi, ResponseFor(Trim(old(app.input))), replyTime))
    ensures Trim(old(app.input)) != [] && Auth.Entitled(Auth.IncrementStep(old(app.auth.State()), first).0) ==>
      var (mid, modal) := Auth.IncrementStep(old(app.auth.State()), first);
      var msg := Trim(old(app.input));
      app.log == old(app.log) + [Counted(modal)] + [InputCleared]
                 + app.PushedEvents(Message(FromUser, msg, now))
                 + (if app.hasChatBox then [TypingShown] else [])
                 + [Counted(Auth.IncrementStep(mid, second).1)] + [TypingHidden]
                 + app.PushedEvents(Message(FromAi, ResponseFor(msg), replyTime))
  {
    var auth := app.auth;
    var limitModal := auth.IncrementConversationCount(first);
    app.log := app.log + [Counted(limitModal)];
    app.SendMessage(now, replyTime, second);
  }

  /**
    The send button and the Enter key call `this.sendMessage()`, which after
    integration is the wrapper and before it the app's own handler. The
    wrapper's own quota check takes `first` for its count; the original
    handler's count takes `second` when wrapped and `first` otherwise.
   */
  method Send(app: AndreaApp, now: Time, replyTime: Time, first: Auth.Step, second: Auth.Step)
    requires app.Valid()
    modifies app`messages, app`isTyping, app`input, app`log, app.auth
    ensures app.wrapped && !old(app.auth.CanChat()) ==>
      && app.messages == old(app.messages) + app.Recorded(Message(FromAi, WrapperUpsell, now))
      && app.input == old(app.input) && app.auth.State() == old(app.auth.State())
    ensures app.wrapped && old(app.auth.CanChat()) && Trim(old(app.input)) == [] ==>
      && app.auth.State() == Auth.IncrementStep(old(app.auth.State()), first).0
      && app.messages == old(app.messages) && app.input == old(app.input)
    ensures app.wrapped && old(app.auth.CanChat()) && Trim(old(app.input)) != []
            && !Auth.Entitled(Auth.IncrementStep(old(app.auth.State()), first).0) ==>
      && app.auth.State() == Auth.IncrementStep(old(app.auth.State()), first).0
      && app.messages == old(app.messages) + app.Recorded(Message(FromAi, AppUpsell, now))
      && app.input == old(app.input)
    ensures app.wrapped && old(app.auth.CanChat()) && Trim(old(app.input)) != []
            && Auth.Entitled(Auth.IncrementStep(old(app.auth.State()), first).0) ==>
      var msg := Trim(old(app.input));
      && app.auth.State() == Auth.IncrementStep(Auth.IncrementStep(old(app.auth.State()), first).0, second).0
      && app.messages == old(app.messages) + app.Recorded(Message(FromUser, msg, now))
                                           + app.Recorded(Message(FromAi, ResponseFor(msg), replyTime))
      && app.input == ""
    ensures !app.wrapped && Trim(old(app.input)) == [] ==>
      && app.messages == old(app.messages) && app.input == old(app.input)
      && (app.auth != null ==> app.auth.State() == old(app.auth.State()))
    ensures !app.wrapped && Trim(old(app.input)) != [] && app.auth != null && !old(app.auth.CanChat()) ==>
      && app.messages == old(app.messages) + app.Recorded(Message(FromAi, AppUpsell, now))
      && app.input == old(app.input) && app.auth.State() == old(app.auth.State())
    ensures !app.wrapped && Trim(old(app.input)) != [] && (app.auth == null || old(app.auth.CanChat())) ==>
      var msg := Trim(old(app.input));
      && (app.auth != null ==> app.auth.State() == Auth.IncrementStep(old(app.auth.State()), first).0)
      && app.messages == old(app.messages) + app.Recorded(Message(FromUser, msg, now))
                                           + app.Recorded(Message(FromAi, ResponseFor(msg), replyTime))
      && app.input == ""
  {
    if app.wrapped {
      WrappedSendMessage(app, now, replyTime, first, second);
    } else {
      app.SendMessage(now, replyTime, first);
    }
  }

  /**
    The page's start-up order followed by one turn: once the wrapper is
    installed on an app that has an auth object, an allowed, non-empty turn
    that the wrapper's count still allows is counted twice and answered.
   */
  method SendAfterIntegration(app: AndreaApp, now: Time, replyTime: Time, first: Auth.Step, second: Auth.Step)
    requires app.Valid() && app.auth != null
    requires app.auth.CanChat() && Trim(app.input) != []
    requires Auth.Entitled(Auth.IncrementStep(app.auth.State(), first).0)
    modifies app, app.auth
    ensures app.wrapped
    ensures app.auth.State() == Auth.IncrementStep(Auth.IncrementStep(old(app.auth.State()), first).0, second).0
    ensures app.messages == old(app.messages)
                            + app.Recorded(Message(FromUser, Trim(old(app.input)), now))
                            + app.Recorded(Message(FromAi, ResponseFor(Trim(old(app.input))), replyTime))
  {
    ghost var before, text := app.auth.State(), app.input;
    IntegrateAuthWithApp(app);
    assert app.wrapped && app.auth.State() == before && app.input == text && app.auth.CanChat();
    Send(app, now, replyTime, first, second);
  }

  /** With the wrapper, an allowed turn counts twice. */
  lemma {:induction false} WrappedTurnCountsTwice(s: Auth.AuthState, first: Auth.Step, second: Auth.Step, n: int)
    requires s.count == Some(n)
    ensures Auth.IncrementStep(Auth.IncrementStep(s, first).0, second).0.count == Some(n + 2)
  {
  }

  /** A guest on the last free turn passes the wrapper's check, is charged for
      it, and is then refused by the original handler: the turn is paid for
      and no reply comes. */
  lemma LastFreeTurnChargedThenRefused(s: Auth.AuthState, first: Auth.Step)
    requires s.user.None? && !s.isPremium && s.count == Some(Auth.MaxFreeConversations - 1)
    ensures Auth.Entitled(s)
    ensures var mid := Auth.IncrementStep(s, first).0; !Auth.Entitled(mid) && mid.count == Some(Auth.MaxFreeConversations)
  {
  }

  /**
    With the wrapper installed, a fresh guest gets a single reply: the first
    turn counts 0 -> 1 -> 2, the second is charged to 3 and then refused, and
    from then on the wrapper refuses.
   */
  lemma WrappedGuestGetsOneReply(s: Auth.AuthState, a: Auth.Step, b: Auth.Step, c: Auth.Step)
    requires s.user.None? && !s.isPremium && s.count == Some(0)
    ensures var mid1 := Auth.IncrementStep(s, a).0;
            var s1 := Auth.IncrementStep(mid1, b).0;
            var mid2 := Auth.IncrementStep(s1, c).0;
            && Auth.Entitled(s) && Auth.Entitled(mid1)
            && s1.count == Some(2) && Auth.Entitled(s1)
            && mid2.count == Some(3) && !Auth.Entitled(mid2)
  {
  }
}
