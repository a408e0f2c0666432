/**
 * The console's submit and click handlers. Each guarded action follows the
 * same shape: one commit at dispatch raises its pending flag (and stores the
 * draft being sent), the request runs, and one commit afterwards lowers the
 * flag again on success and on failure alike; success also folds the result
 * into the committed entity and drops the draft, failure keeps the draft
 * exactly as submitted. A toast reports the outcome.
 *
 * The request outcome is an input (the race events of `Api.Post`), and so
 * is the time every toast is stamped with.
 */
module Handlers {

  import opened Wrappers
  import opened Js
  import opened Domain
  import opened State
  import opened Api
  import opened UiHelpers

  datatype Flag = LoginFlag | DadosSave | ChatSend | InstRefresh | InstDisconnect | InstSave | SupportSend

  function FlagOf(p: Pending, f: Flag): bool {
    match f
    case LoginFlag => p.login
    case DadosSave => p.dadosSave
    case ChatSend => p.chatSend
    case InstRefresh => p.instRefresh
    case InstDisconnect => p.instDisconnect
    case InstSave => p.instSave
    case SupportSend => p.supportSend
  }

  /** `{...prev.pending, flag: v}`. */
  function SetFlag(p: Pending, f: Flag, v: bool): (r: Pending)
    ensures FlagOf(r, f) == v
    ensures forall g :: g != f ==> FlagOf(r, g) == FlagOf(p, g)
  {
    match f
    case LoginFlag => p.(login := v)
    case DadosSave => p.(dadosSave := v)
    case ChatSend => p.(chatSend := v)
    case InstRefresh => p.(instRefresh := v)
    case InstDisconnect => p.(instDisconnect := v)
    case InstSave => p.(instSave := v)
    case SupportSend => p.(supportSend := v)
  }

  /** Raising a flag and lowering it again leaves every flag as it was, except that one, which ends low. */
  lemma FlagRoundTrip(p: Pending, f: Flag)
    ensures SetFlag(SetFlag(p, f, true), f, false) == SetFlag(p, f, false)
    ensures !FlagOf(p, f) ==> SetFlag(SetFlag(p, f, true), f, false) == p
  {
  }

  /** The outcome of a request, from its race events. */
  function Outcome(events: seq<RaceEvent<Response>>): Result<Envelope, Value> {
    PostResult(RaceWinner(events))
  }

  // ---------------------------------------------------------------------------
  // Profile form

  /** `{...prev.empresa, ...payload.empresa, produtos, faqs}`. */
  function SavedEmpresa(prev: Value, payload: DadosPayload): (r: Value)
    ensures r.Obj?
    ensures forall k :: k in EmpresaFields(payload.empresa) ==> Get(r, k) == EmpresaFields(payload.empresa)[k]
    ensures Get(r, "produtos") == Arr(ProdutosToJs(payload.produtos))
    ensures Get(r, "faqs") == Arr(FaqsToJs(payload.faqs))
    ensures forall k :: k in Spread(prev) && k !in EmpresaFields(payload.empresa) && k != "produtos" && k != "faqs" ==>
      Get(r, k) == Spread(prev)[k]
  {
    Obj(Spread(prev) + EmpresaFields(payload.empresa)
        + map["produtos" := Arr(ProdutosToJs(payload.produtos)), "faqs" := Arr(FaqsToJs(payload.faqs))])
  }

  function DadosStart(prev: AppState, payload: DadosPayload): Partial {
    NoChange.(pending := Some(SetFlag(prev.pending, DadosSave, true)),
              forms := Some(prev.forms.(dados := Some(payload))))
  }

  function DadosSaved(prev: AppState, payload: DadosPayload): Partial {
    NoChange.(pending := Some(SetFlag(prev.pending, DadosSave, false)),
              empresa := Some(SavedEmpresa(prev.empresa, payload)),
              forms := Some(prev.forms.(dados := None)))
  }

  function DadosFailed(prev: AppState, payload: DadosPayload): Partial {
    NoChange.(pending := Some(SetFlag(prev.pending, DadosSave, false)),
              forms := Some(prev.forms.(dados := Some(payload))))
  }

  /** Dispatch: raise the flag and keep the payload as the draft. */
  method BeginDados(store: Store, payload: DadosPayload)
    requires store.Valid()
    modifies store`state, store`storage, store`rootAttrs, store`trace
    ensures store.Valid() && store.listeners == old(store.listeners)
    ensures store.storage == old(store.storage) && store.rootAttrs == old(store.rootAttrs)
    ensures store.state == old(store.state).(
      pending := SetFlag(old(store.state.pending), DadosSave, true),
      forms := old(store.state.forms).(dados := Some(payload)))
  {
    store.SetState(Updater(prev => DadosStart(prev, payload)));
    QuietCommit(DadosStart(old(store.state), payload), store.state, old(store.storage), old(store.rootAttrs), store.listeners);
  }

  /** Settle: lower the flag; commit the company and drop the draft on success, keep the draft on failure. */
  method FinishDados(store: Store, payload: DadosPayload, result: Result<Envelope, Value>, now: int)
    requires store.Valid()
    modifies store`state, store`storage, store`rootAttrs, store`trace
    ensures store.Valid() && store.listeners == old(store.listeners)
    ensures store.storage == old(store.storage) && store.rootAttrs == old(store.rootAttrs)
    ensures result.Success? ==>
      store.state == old(store.state).(
        pending := SetFlag(old(store.state.pending), DadosSave, false),
        empresa := SavedEmpresa(old(store.state.empresa), payload),
        forms := old(store.state.forms).(dados := None),
        toast := Some(Toast(Str("Dados salvos com sucesso."), "success", now)))
    ensures result.Failure? ==>
      store.state == old(store.state).(
        pending := SetFlag(old(store.state.pending), DadosSave, false),
        forms := old(store.state.forms).(dados := Some(payload)),
        toast := Some(Toast(ErrorMessage(result.error, "Erro ao salvar dados."), "error", now)))
  {
    if result.Success? {
      store.SetState(Updater(prev => DadosSaved(prev, payload)));
      QuietCommit(DadosSaved(old(store.state), payload), store.state, old(store.storage), old(store.rootAttrs), store.listeners);
      store.ShowToast(Str("Dados salvos com sucesso."), now);
    } else {
      store.SetState(Updater(prev => DadosFailed(prev, payload)));
      QuietCommit(DadosFailed(old(store.state), payload), store.state, old(store.storage), old(store.rootAttrs), store.listeners);
      store.ShowToast(ErrorMessage(result.error, "Erro ao salvar dados."), now, "error");
    }
  }

  /** The profile form's submit handler. */
  method SubmitDados(store: Store, data: map<string, string>, produtoCards: nat, faqCards: nat,
                     events: seq<RaceEvent<Response>>, now: int)
    returns (payload: DadosPayload, sent: Value, ghost dispatched: AppState)
    requires store.Valid()
    modifies store`state, store`storage, store`rootAttrs, store`trace
    ensures store.Valid() && store.listeners == old(store.listeners)
    ensures store.storage == old(store.storage) && store.rootAttrs == old(store.rootAttrs)
    ensures payload.empresa == EmpresaOf(data)
    ensures payload.produtos == KeptProdutos(data, produtoCards) && payload.faqs == KeptFaqs(data, faqCards)
    ensures dispatched.pending.dadosSave && dispatched.forms.dados == Some(payload)
    ensures sent == BuildRequestBody("dados.save", DadosToJs(payload), true, old(store.state.auth))
    ensures store.state.pending == SetFlag(old(store.state.pending), DadosSave, false)
    ensures Outcome(events).Success? ==>
      store.state == old(store.state).(
        pending := store.state.pending,
        empresa := SavedEmpresa(old(store.state.empresa), payload),
        forms := old(store.state.forms).(dados := None),
        toast := Some(Toast(Str("Dados salvos com sucesso."), "success", now)))
    ensures Outcome(events).Failure? ==>
      store.state == old(store.state).(
        pending := store.state.pending,
        forms := old(store.state.forms).(dados := Some(payload)),
        toast := Some(Toast(ErrorMessage(Outcome(events).error, "Erro ao salvar dados."), "error", now)))
  {
    payload := BuildDadosPayload(data, produtoCards, faqCards);
    BeginDados(store, payload);
    dispatched := store.state;
    var result;
    result, sent := Post(store, "dados.save", events, DadosToJs(payload));
    FinishDados(store, payload, result, now);
  }

  // ---------------------------------------------------------------------------
  // Flags raised on their own, and lowered with the entity a refresh or disconnect commits

  /** Dispatch of an action that keeps no draft: raise its flag. */
  method BeginAction(store: Store, f: Flag)
    requires store.Valid()
    modifies store`state, store`storage, store`rootAttrs, store`trace
    ensures store.Valid() && store.listeners == old(store.listeners)
    ensures store.storage == old(store.storage) && store.rootAttrs == old(store.rootAttrs)
    ensures store.state == old(store.state).(pending := SetFlag(old(store.state.pending), f, true))
  {
    store.SetState(Updater((prev: AppState) => NoChange.(pending := Some(SetFlag(prev.pending, f, true)))));
    QuietCommit(NoChange.(pending := Some(SetFlag(old(store.state.pending), f, true))), store.state,
                old(store.storage), old(store.rootAttrs), store.listeners);
  }

  /** A commit of `p` on top of lowering flag `f`, when `p` names none of theme, auth and layout. */
  method FinishAction(store: Store, f: Flag, p: Partial)
    requires store.Valid()
    requires p.theme.None? && p.auth.None? && p.layout.None? && p.pending.None?
    modifies store`state, store`storage, store`rootAttrs, store`trace
    ensures store.Valid() && store.listeners == old(store.listeners)
    ensures store.storage == old(store.storage) && store.rootAttrs == old(store.rootAttrs)
    ensures store.state == Merge(old(store.state), p).(pending := SetFlag(old(store.state.pending), f, false))
  {
    store.SetState(Updater((prev: AppState) => p.(pending := Some(SetFlag(prev.pending, f, false)))));
    QuietCommit(p.(pending := Some(SetFlag(old(store.state.pending), f, false))), store.state,
                old(store.storage), old(store.rootAttrs), store.listeners);
  }

  /** `instancias` after a successful refresh: the returned instance when there is one. */
  function RefreshedInstancias(prev: Value, data: Value): (r: Value)
    ensures Truthy(data) ==> r == Arr([data])
    ensures !Truthy(data) ==> r == prev
  {
    if Truthy(data) then Arr([data]) else prev
  }

  /** Settlement of a refresh: the returned instance and a confirmation on success, the error on failure. */
  method SettleRefresh(store: Store, result: Result<Envelope, Value>, now: int)
    requires store.Valid()
    modifies store`state, store`storage, store`rootAttrs, store`trace
    ensures store.Valid() && store.listeners == old(store.listeners)
    ensures store.storage == old(store.storage) && store.rootAttrs == old(store.rootAttrs)
    ensures result.Success? ==>
      store.state == old(store.state).(
        pending := SetFlag(old(store.state.pending), InstRefresh, false),
        instancias := RefreshedInstancias(old(store.state.instancias), result.value.data),
        forms := old(store.state.forms).(instancias := None),
        toast := Some(Toast(Str("Conexão atualizada."), "success", now)))
    ensures result.Failure? ==>
      store.state == old(store.state).(
        pending := SetFlag(old(store.state.pending), InstRefresh, false),
        toast := Some(Toast(ErrorMessage(result.error, "Erro ao atualizar conexão."), "error", now)))
  {
    if result.Success? {
      var forms := store.state.forms.(instancias := None);
      FinishAction(store, InstRefresh,
        NoChange.(instancias := Some(RefreshedInstancias(store.state.instancias, result.value.data)), forms := Some(forms)));
      store.ShowToast(Str("Conexão atualizada."), now);
    } else {
      FinishAction(store, InstRefresh, NoChange);
      store.ShowToast(ErrorMessage(result.error, "Erro ao atualizar conexão."), now, "error");
    }
  }

  /** The refresh button of the connection panel. */
  method RefreshInstancias(store: Store, events: seq<RaceEvent<Response>>, now: int)
    returns (sent: Value, ghost dispatched: AppState)
    requires store.Valid()
    modifies store`state, store`storage, store`rootAttrs, store`trace
    ensures store.Valid() && store.listeners == old(store.listeners)
    ensures store.storage == old(store.storage) && store.rootAttrs == old(store.rootAttrs)
    ensures dispatched.pending.instRefresh
    ensures sent == BuildRequestBody("inst.refresh", EmptyObj, true, old(store.state.auth))
    ensures Outcome(events).Success? ==>
      store.state == old(store.state).(
        pending := SetFlag(old(store.state.pending), InstRefresh, false),
        instancias := RefreshedInstancias(old(store.state.instancias), Outcome(events).value.data),
        forms := old(store.state.forms).(instancias := None),
        toast := Some(Toast(Str("Conexão atualizada."), "success", now)))
    ensures Outcome(events).Failure? ==>
      store.state == old(store.state).(
        pending := SetFlag(old(store.state.pending), InstRefresh, false),
        toast := Some(Toast(ErrorMessage(Outcome(events).error, "Erro ao atualizar conexão."), "error", now)))
  {
    BeginAction(store, InstRefresh);
    dispatched := store.state;
    var result: Result<Envelope, Value>;
    result, sent := Post(store, "inst.refresh", events);
    SettleRefresh(store, result, now);
  }

  /** Settlement of a disconnect: no instances and a confirmation on success, the error on failure. */
  method SettleDisconnect(store: Store, result: Result<Envelope, Value>, now: int)
    requires store.Valid()
    modifies store`state, store`storage, store`rootAttrs, store`trace
    ensures store.Valid() && store.listeners == old(store.listeners)
    ensures store.storage == old(store.storage) && store.rootAttrs == old(store.rootAttrs)
    ensures result.Success? ==>
      store.state == old(store.state).(
        pending := SetFlag(old(store.state.pending), InstDisconnect, false),
        instancias := Arr([]),
        forms := old(store.state.forms).(instancias := None),
        toast := Some(Toast(Str("Instância desconectada."), "success", now)))
    ensures result.Failure? ==>
      store.state == old(store.state).(
        pending := SetFlag(old(store.state.pending), InstDisconnect, false),
        toast := Some(Toast(ErrorMessage(result.error, "Erro ao desconectar."), "error", now)))
  {
    if result.Success? {
      var forms := store.state.forms.(instancias := None);
      FinishAction(store, InstDisconnect, NoChange.(instancias := Some(Arr([])), forms := Some(forms)));
      store.ShowToast(Str("Instância desconectada."), now);
    } else {
      FinishAction(store, InstDisconnect, NoChange);
      store.ShowToast(ErrorMessage(result.error, "Erro ao desconectar."), now, "error");
    }
  }

  /** The disconnect button of the connection panel. */
  method DisconnectInstancia(store: Store, events: seq<RaceEvent<Response>>, now: int)
    returns (sent: Value, ghost dispatched: AppState)
    requires store.Valid()
    modifies store`state, store`storage, store`rootAttrs, store`trace
    ensures store.Valid() && store.listeners == old(store.listeners)
    ensures store.storage == old(store.storage) && store.rootAttrs == old(store.rootAttrs)
    ensures dispatched.pending.instDisconnect
    ensures sent == BuildRequestBody("inst.disconnect", EmptyObj, true, old(store.state.auth))
    ensures Outcome(events).Success? ==>
      store.state == old(store.state).(
        pending := SetFlag(old(store.state.pending), InstDisconnect, false),
        instancias := Arr([]),
        forms := old(store.state.forms).(instancias := None),
        toast := Some(Toast(Str("Instância desconectada."), "success", now)))
    ensures Outcome(events).Failure? ==>
      store.state == old(store.state).(
        pending := SetFlag(old(store.state.pending), InstDisconnect, false),
        toast := Some(Toast(ErrorMessage(Outcome(events).error, "Erro ao desconectar."), "error", now)))
  {
    BeginAction(store, InstDisconnect);
    dispatched := store.state;
    var result: Result<Envelope, Value>;
    result, sent := Post(store, "inst.disconnect", events);
    SettleDisconnect(store, result, now);
  }

  // ---------------------------------------------------------------------------
  // Drafted actions: connection settings and the support message

  /** Dispatch of an action with a draft: raise its flag and store the draft in the forms. */
  method BeginDrafted(store: Store, f: Flag, forms: Forms)
    requires store.Valid()
    modifies store`state, store`storage, store`rootAttrs, store`trace
    ensures store.Valid() && store.listeners == old(store.listeners)
    ensures store.storage == old(store.storage) && store.rootAttrs == old(store.rootAttrs)
    ensures store.state == old(store.state).(pending := SetFlag(old(store.state.pending), f, true), forms := forms)
  {
    store.SetState(Updater((prev: AppState) => NoChange.(pending := Some(SetFlag(prev.pending, f, true)), forms := Some(forms))));
    QuietCommit(NoChange.(pending := Some(SetFlag(old(store.state.pending), f, true)), forms := Some(forms)), store.state,
                old(store.storage), old(store.rootAttrs), store.listeners);
  }

  /** `[{...(prev.instancias?.[0] || {}), ...payload}]`. */
  function SavedInstancias(prev: Value, payload: InstPayload): (r: Value)
    ensures r.Arr? && |r.items| == 1 && r.items[0].Obj?
  {
    Arr([Obj(Spread(Or(At(prev, 0), EmptyObj)) + InstFields(payload))])
  }

  /** The saved instance takes every submitted setting and keeps the other fields of the first instance. */
  lemma SavedInstanciaOverlays(prev: Value, payload: InstPayload, k: string)
    ensures k in InstFields(payload) ==> Get(SavedInstancias(prev, payload).items[0], k) == InstFields(payload)[k]
    ensures k !in InstFields(payload) && k in Spread(At(prev, 0)) ==>
      Get(SavedInstancias(prev, payload).items[0], k) == Spread(At(prev, 0))[k]
  {
  }

  /** Settlement of a settings save: the merged instance on success, the draft kept on failure. */
  method SettleInstSave(store: Store, payload: InstPayload, result: Result<Envelope, Value>, now: int)
    requires store.Valid()
    modifies store`state, store`storage, store`rootAttrs, store`trace
    ensures store.Valid() && store.listeners == old(store.listeners)
    ensures store.storage == old(store.storage) && store.rootAttrs == old(store.rootAttrs)
    ensures result.Success? ==>
      store.state == old(store.state).(
        pending := SetFlag(old(store.state.pending), InstSave, false),
        instancias := SavedInstancias(old(store.state.instancias), payload),
        forms := old(store.state.forms).(instancias := None),
        toast := Some(Toast(Str("Configurações salvas."), "success", now)))
    ensures result.Failure? ==>
      store.state == old(store.state).(
        pending := SetFlag(old(store.state.pending), InstSave, false),
        forms := old(store.state.forms).(instancias := Some(payload)),
        toast := Some(Toast(ErrorMessage(result.error, "Erro ao salvar configurações."), "error", now)))
  {
    if result.Success? {
      var forms := store.state.forms.(instancias := None);
      FinishAction(store, InstSave,
        NoChange.(instancias := Some(SavedInstancias(store.state.instancias, payload)), forms := Some(forms)));
      store.ShowToast(Str("Configurações salvas."), now);
    } else {
      var forms := store.state.forms.(instancias := Some(payload));
      FinishAction(store, InstSave, NoChange.(forms := Some(forms)));
      store.ShowToast(ErrorMessage(result.error, "Erro ao salvar configurações."), now, "error");
    }
  }

  /** The save button of the connection settings. */
  method SaveInstancia(store: Store, payload: InstPayload, events: seq<RaceEvent<Response>>, now: int)
    returns (sent: Value, ghost dispatched: AppState)
    requires store.Valid()
    modifies store`state, store`storage, store`rootAttrs, store`trace
    ensures store.Valid() && store.listeners == old(store.listeners)
    ensures store.storage == old(store.storage) && store.rootAttrs == old(store.rootAttrs)
    ensures dispatched.pending.instSave && dispatched.forms.instancias == Some(payload)
    ensures sent == BuildRequestBody("inst.update", Obj(InstFields(payload)), true, old(store.state.auth))
    ensures Outcome(events).Success? ==>
      store.state == old(store.state).(
        pending := SetFlag(old(store.state.pending), InstSave, false),
        instancias := SavedInstancias(old(store.state.instancias), payload),
        forms := old(store.state.forms).(instancias := None),
        toast := Some(Toast(Str("Configurações salvas."), "success", now)))
    ensures Outcome(events).Failure? ==>
      store.state == old(store.state).(
        pending := SetFlag(old(store.state.pending), InstSave, false),
        forms := old(store.state.forms).(instancias := Some(payload)),
        toast := Some(Toast(ErrorMessage(Outcome(events).error, "Erro ao salvar configurações."), "error", now)))
  {
    BeginDrafted(store, InstSave, store.state.forms.(instancias := Some(payload)));
    dispatched := store.state;
    var result: Result<Envelope, Value>;
    result, sent := Post(store, "inst.update", events, Obj(InstFields(payload)));
    SettleInstSave(store, payload, result, now);
  }

  /** How a support message settles: the draft is cleared on success and kept on failure, with the toast. */
  method SettleSupport(store: Store, raw: string, result: Result<Envelope, Value>, now: int)
    requires store.Valid()
    modifies store`state, store`storage, store`rootAttrs, store`trace
    ensures store.Valid() && store.listeners == old(store.listeners)
    ensures store.storage == old(store.storage) && store.rootAttrs == old(store.rootAttrs)
    ensures result.Success? ==>
      store.state == old(store.state).(
        pending := SetFlag(old(store.state.pending), SupportSend, false),
        forms := old(store.state.forms).(support := ""),
        toast := Some(Toast(Or(Get(result.value.data, "reply"), Str("Solicitação enviada.")), "success", now)))
    ensures result.Failure? ==>
      store.state == old(store.state).(
        pending := SetFlag(old(store.state.pending), SupportSend, false),
        forms := old(store.state.forms).(support := raw),
        toast := Some(Toast(ErrorMessage(result.error, "Erro ao enviar mensagem."), "error", now)))
  {
    if result.Success? {
      var forms := store.state.forms.(support := "");
      FinishAction(store, SupportSend, NoChange.(forms := Some(forms)));
      store.ShowToast(Or(Get(result.value.data, "reply"), Str("Solicitação enviada.")), now);
    } else {
      var forms := store.state.forms.(support := raw);
      FinishAction(store, SupportSend, NoChange.(forms := Some(forms)));
      store.ShowToast(ErrorMessage(result.error, "Erro ao enviar mensagem."), now, "error");
    }
  }

  /** The support form: a message blank after trimming is ignored; the draft is the raw text. */
  method SubmitSupport(store: Store, raw: string, events: seq<RaceEvent<Response>>, now: int)
    returns (sent: Option<Value>, ghost dispatched: AppState)
    requires store.Valid()
    modifies store`state, store`storage, store`rootAttrs, store`trace
    ensures store.Valid() && store.listeners == old(store.listeners)
    ensures store.storage == old(store.storage) && store.rootAttrs == old(store.rootAttrs)
    ensures Trim(raw) == "" ==> sent == None && store.state == old(store.state)
    ensures Trim(raw) != "" ==>
      && sent == Some(BuildRequestBody("support.chat", Obj(map["message" := Str(Trim(raw))]), true, old(store.state.auth)))
      && dispatched.pending.supportSend && dispatched.forms.support == raw
      && store.state.pending == SetFlag(old(store.state.pending), SupportSend, false)
      && (Outcome(events).Success? ==>
        store.state == old(store.state).(
          pending := store.state.pending,
          forms := old(store.state.forms).(support := ""),
          toast := Some(Toast(Or(Get(Outcome(events).value.data, "reply"), Str("Solicitação enviada.")), "success", now))))
      && (Outcome(events).Failure? ==>
        store.state == old(store.state).(
          pending := store.state.pending,
          forms := old(store.state.forms).(support := raw),
          toast := Some(Toast(ErrorMessage(Outcome(events).error, "Erro ao enviar mensagem."), "error", now))))
  {
    var message := Trim(raw);
    dispatched := store.state;
    if message == "" {
      sent := None;
      return;
    }
    BeginDrafted(store, SupportSend, store.state.forms.(support := raw));
    dispatched := store.state;
    var result, body := Post(store, "support.chat", events, Obj(map["message" := Str(message)]));
    sent := Some(body);
    SettleSupport(store, raw, result, now);
  }

  // ---------------------------------------------------------------------------
  // Theme switch and persona select

  /** The theme toggle: light becomes dark, anything else becomes light. */
  function NextTheme(theme: string): (r: string)
    ensures r == "light" || r == "dark"
    ensures (theme == "light" || theme == "dark") ==> r != theme
  {
    if theme == "light" then "dark" else "light"
  }

  /** Two toggles return to a light or dark theme; any other stored theme settles on light after one. */
  lemma ToggleTwice(theme: string)
    ensures (theme == "light" || theme == "dark") ==> NextTheme(NextTheme(theme)) == theme
    ensures NextTheme(NextTheme(NextTheme(theme))) == NextTheme(theme)
  {
  }

  /** A click on the theme switch: the new theme is committed, stored and set on the document. */
  method ToggleTheme(store: Store)
    requires store.Valid()
    modifies store`state, store`storage, store`rootAttrs, store`trace
    ensures store.Valid() && store.listeners == old(store.listeners)
    ensures store.state == old(store.state).(theme := NextTheme(old(store.state.theme)))
    ensures store.storage == old(store.storage)[ThemeKey := NextTheme(old(store.state.theme))]
    ensures store.rootAttrs == old(store.rootAttrs)["data-theme" := NextTheme(old(store.state.theme))]
  {
    var next := NextTheme(store.state.theme);
    store.SetState(Patch(NoChange.(theme := Some(next))));
    var p := NoChange.(theme := Some(next));
    assert CommitEffects(p, store.state) == [SetRootAttr("data-theme", next), SetItem(ThemeKey, next)];
    CommitThenNotify(old(store.storage), old(store.rootAttrs), CommitEffects(p, store.state), store.listeners);
    ThemeStepWrites(old(store.storage), old(store.rootAttrs), next);
  }

  /** The persona select: an empty choice falls back to the default persona. */
  method SelectPersona(store: Store, value: string)
    requires store.Valid()
    modifies store`state, store`storage, store`rootAttrs, store`trace
    ensures store.Valid() && store.listeners == old(store.listeners)
    ensures store.storage == old(store.storage) && store.rootAttrs == old(store.rootAttrs)
    ensures value != "" ==> store.state == old(store.state).(forms := old(store.state.forms).(chatPersona := value))
    ensures value == "" ==> store.state == old(store.state).(forms := old(store.state.forms).(chatPersona := "josi"))
  {
    var persona := if value == "" then "josi" else value;
    store.SetState(Updater((prev: AppState) => NoChange.(forms := Some(prev.forms.(chatPersona := persona)))));
    QuietCommit(NoChange.(forms := Some(old(store.state.forms).(chatPersona := persona))), store.state,
                old(store.storage), old(store.rootAttrs), store.listeners);
  }

  // ---------------------------------------------------------------------------
  // Chat simulator

  /** The agent's entry: the reply (or a placeholder) on success, the error message on failure. */
  function AgentText(result: Result<Envelope, Value>): (r: Value)
    ensures result.Success? && Truthy(Get(result.value.data, "reply")) ==> r == Get(result.value.data, "reply")
    ensures result.Success? && !Truthy(Get(result.value.data, "reply")) ==> r == Str("Sem resposta.")
    ensures result.Failure? ==> r == ErrorMessage(result.error, "Falha ao processar.")
  {
    if result.Success? then Or(Get(result.value.data, "reply"), Str("Sem resposta."))
    else ErrorMessage(result.error, "Falha ao processar.")
  }

  /** One chat commit: set the chatSend flag and append one entry to the conversation. */
  method AppendChat(store: Store, sending: bool, entry: ChatMessage)
    requires store.Valid()
    modifies store`state, store`storage, store`rootAttrs, store`trace
    ensures store.Valid() && store.listeners == old(store.listeners)
    ensures store.storage == old(store.storage) && store.rootAttrs == old(store.rootAttrs)
    ensures store.state == old(store.state).(
      pending := SetFlag(old(store.state.pending), ChatSend, sending),
      chat := old(store.state.chat).(messages := old(store.state.chat.messages) + [entry]))
  {
    store.SetState(Updater((prev: AppState) => NoChange.(
      pending := Some(SetFlag(prev.pending, ChatSend, sending)),
      chat := Some(prev.chat.(messages := prev.chat.messages + [entry])))));
    QuietCommit(NoChange.(
      pending := Some(SetFlag(old(store.state.pending), ChatSend, sending)),
      chat := Some(old(store.state.chat).(messages := old(store.state.chat.messages) + [entry]))), store.state,
      old(store.storage), old(store.rootAttrs), store.listeners);
  }

  /**
   * The chat form: a message blank after trimming is ignored; otherwise the
   * user's entry is appended at once and the agent's entry once the call
   * settles, so the conversation grows by exactly these two, in this order.
   * The entry ids (time and randomness in the original) are parameters.
   */
  method SendChat(store: Store, raw: string, personaValue: string, userId: string, replyId: string,
                  events: seq<RaceEvent<Response>>)
    returns (sent: Option<Value>, ghost dispatched: AppState)
    requires store.Valid()
    modifies store`state, store`storage, store`rootAttrs, store`trace
    ensures store.Valid() && store.listeners == old(store.listeners)
    ensures store.storage == old(store.storage) && store.rootAttrs == old(store.rootAttrs)
    ensures Trim(raw) == "" ==> sent == None && store.state == old(store.state)
    ensures Trim(raw) != "" ==>
      var persona := if personaValue == "" then "josi" else personaValue;
      var mine := ChatMessage(userId, "Você", UserRole, Str(Trim(raw)));
      && sent == Some(BuildRequestBody("sim.chat",
           Obj(map["persona" := Str(persona), "message" := Str(Trim(raw))]), true, old(store.state.auth)))
      && dispatched.pending.chatSend
      && dispatched.chat.messages == old(store.state.chat.messages) + [mine]
      && store.state == old(store.state).(
           pending := SetFlag(old(store.state.pending), ChatSend, false),
           chat := old(store.state.chat).(messages := old(store.state.chat.messages)
             + [mine, ChatMessage(replyId, "Agente", AgentRole, AgentText(Outcome(events)))]))
  {
    var message := Trim(raw);
    dispatched := store.state;
    if message == "" {
      sent := None;
      return;
    }
    var persona := if personaValue == "" then "josi" else personaValue;
    var mine := ChatMessage(userId, "Você", UserRole, Str(message));
    ghost var s0 := store.state;
    AppendChat(store, true, mine);
    dispatched := store.state;
    assert "sim.chat" != LogoutAction;
    var result, body := Post(store, "sim.chat", events, Obj(map["persona" := Str(persona), "message" := Str(message)]));
    sent := Some(body);
    assert store.state == dispatched;
    var reply := ChatMessage(replyId, "Agente", AgentRole, AgentText(result));
    AppendChat(store, false, reply);
    FlagRoundTrip(s0.pending, ChatSend);
    assert s0.chat.messages + [mine] + [reply] == s0.chat.messages + [mine, reply];
  }

  // ---------------------------------------------------------------------------
  // Session transitions

  /** The commit the logout button makes once the call settles, whichever way. */
  const LogoutPartial: Partial :=
    NoChange.(auth := Some(SignedOut), currentView := Some("login"), forms := Some(ResetForms), chat := Some(EmptyChat))

  /** The `finally` of the logout button: sign out, clear the forms and the conversation, say so. */
  method EndSession(store: Store, now: int)
    requires store.Valid()
    modifies store`state, store`storage, store`rootAttrs, store`trace
    ensures store.Valid() && store.listeners == old(store.listeners)
    ensures store.state == old(store.state).(auth := SignedOut, currentView := "login", forms := ResetForms,
      chat := EmptyChat, toast := Some(Toast(Str("Sessão encerrada."), "success", now)))
    ensures store.storage == old(store.storage) - {SessionKey} && store.rootAttrs == old(store.rootAttrs)
  {
    store.SetState(Patch(LogoutPartial));
    AuthOnlyCommit(old(store.storage), old(store.rootAttrs), LogoutPartial, store.state, store.listeners);
    store.ShowToast(Str("Sessão encerrada."), now);
  }

  /**
   * The logout button: `auth.logout` is attempted and its failure ignored;
   * the session then ends locally in every case, so a reload finds no session.
   */
  method Logout(store: Store, events: seq<RaceEvent<Response>>, now: int) returns (sent: Value)
    requires store.Valid()
    modifies store`state, store`storage, store`rootAttrs, store`trace
    ensures store.Valid() && store.listeners == old(store.listeners)
    ensures sent == BuildRequestBody(LogoutAction, EmptyObj, true, old(store.state.auth))
    ensures store.state == old(store.state).(auth := SignedOut, currentView := "login", forms := ResetForms,
      chat := EmptyChat, toast := Some(Toast(Str("Sessão encerrada."), "success", now)))
    ensures store.storage == old(store.storage) - {SessionKey} && store.rootAttrs == old(store.rootAttrs)
    ensures HydrationOf(store.storage) == NothingStored
  {
    var result;
    result, sent := Post(store, LogoutAction, events);
    if result.Success? {
      CommitThenNotify(old(store.storage), old(store.rootAttrs), [RemoveItem(SessionKey)], store.listeners);
      ApplySnoc(old(store.storage), old(store.rootAttrs), [], RemoveItem(SessionKey));
    }
    assert store.storage - {SessionKey} == old(store.storage) - {SessionKey};
    EndSession(store, now);
  }

  /** A value read as text: null and undefined give none, anything else its string form. */
  function AsText(v: Value): (r: Option<string>)
    ensures r.None? <==> Nullish(v)
    ensures v.Str? ==> r == Some(v.s)
  {
    if Nullish(v) then None else Some(ToStr(v))
  }

  /**
   * handleLoginSuccess's identity: the user id from `user_id` then `user.id`,
   * the email from `email` then `user.email` then the fallback, the token
   * from `session_token` then `sessionToken`; `??` moves on only past null
   * and undefined.
   */
  function LoginIdentity(data: Value, fallbackEmail: Option<string>): (r: Auth)
    ensures r.user.Some?
    ensures r.user.value.id == AsText(Coalesce(Get(data, "user_id"), Get(Get(data, "user"), "id")))
    ensures !Nullish(Get(data, "email")) ==> r.user.value.email == AsText(Get(data, "email"))
    ensures Nullish(Get(data, "email")) && Nullish(Get(Get(data, "user"), "email")) ==> r.user.value.email == fallbackEmail
    ensures Get(data, "session_token").Str? ==> r.sessionToken == Some(Get(data, "session_token").s)
    ensures Nullish(Get(data, "session_token")) ==> r.sessionToken == AsText(Get(data, "sessionToken"))
  {
    var id := Coalesce(Get(data, "user_id"), Coalesce(Get(Get(data, "user"), "id"), Null));
    var email := Coalesce(Get(data, "email"), Coalesce(Get(Get(data, "user"), "email"), OptStr(fallbackEmail)));
    var token := Coalesce(Get(data, "session_token"), Coalesce(Get(data, "sessionToken"), Null));
    Auth(Some(User(AsText(id), AsText(email))), AsText(token))
  }

  /** The commit of handleLoginSuccess: the new auth, the profile view, fresh forms and conversation. */
  function LoginPartial(data: Value, a: Auth): (r: Partial)
    ensures r.auth == Some(a) && r.theme.None? && r.layout.None? && r.pending.None? && r.toast.None?
    ensures r.empresa.Some? <==> Truthy(Get(data, "empresa"))
    ensures r.instancias.Some? <==> Get(data, "instancias").Arr?
  {
    NoChange.(
      auth := Some(a),
      currentView := Some("dados"),
      isSignupOpen := Some(false),
      forms := Some(ResetForms),
      chat := Some(EmptyChat),
      empresa := if Truthy(Get(data, "empresa")) then Some(Get(data, "empresa")) else None,
      instancias := if Get(data, "instancias").Arr? then Some(Get(data, "instancias")) else None)
  }

  /** The commit after `auth.me`: the company (or null) and the instances (or none). */
  function ContextPartial(data: Value): (r: Partial)
    ensures r.empresa == Some(Or(Get(data, "empresa"), Null))
    ensures r.instancias == Some(Or(Get(data, "instancias"), Arr([])))
    ensures r == NoChange.(empresa := r.empresa, instancias := r.instancias)
  {
    NoChange.(empresa := Some(Or(Get(data, "empresa"), Null)), instancias := Some(Or(Get(data, "instancias"), Arr([]))))
  }

  /** The greeting handleLoginSuccess shows: the demo one when the context call is skipped. */
  function GreetingText(skipContext: bool): string {
    if skipContext then "Sessão demo iniciada." else "Sessão iniciada com sucesso."
  }

  /**
   * The state handleLoginSuccess leaves before any context call: the login
   * commit, then the greeting. Theme, layout, pending flags, onboarding and
   * the hydration flag are those of `s`.
   */
  function Greeted(s: AppState, data: Value, fallbackEmail: Option<string>, skipContext: bool, now: int): (r: AppState)
    ensures r.auth == LoginIdentity(data, fallbackEmail) && r.currentView == "dados"
    ensures r.forms == ResetForms && r.chat == EmptyChat && !r.isSignupOpen
    ensures r.toast == Some(Toast(Str(GreetingText(skipContext)), "success", now))
    ensures r.theme == s.theme && r.layout == s.layout && r.pending == s.pending && r.hasHydrated == s.hasHydrated
    ensures r.onboardingStep == s.onboardingStep && r.isTourVisible == s.isTourVisible && r.isDrawerOpen == s.isDrawerOpen
    ensures Truthy(Get(data, "empresa")) ==> r.empresa == Get(data, "empresa")
    ensures !Truthy(Get(data, "empresa")) ==> r.empresa == s.empresa
    ensures Get(data, "instancias").Arr? ==> r.instancias == Get(data, "instancias")
    ensures !Get(data, "instancias").Arr? ==> r.instancias == s.instancias
  {
    Merge(s, LoginPartial(data, LoginIdentity(data, fallbackEmail))).(
      toast := Some(Toast(Str(GreetingText(skipContext)), "success", now)))
  }

  /**
   * The state handleLoginSuccess leaves when it makes the context call: the
   * greeted state, with the company and instances of a successful `auth.me`.
   */
  function LoggedIn(s: AppState, data: Value, fallbackEmail: Option<string>, meEvents: seq<RaceEvent<Response>>, now: int)
    : (r: AppState)
    ensures Outcome(meEvents).Failure? ==> r == Greeted(s, data, fallbackEmail, false, now)
    ensures Outcome(meEvents).Success? ==>
      && r == Greeted(s, data, fallbackEmail, false, now).(
           empresa := Or(Get(Outcome(meEvents).value.data, "empresa"), Null),
           instancias := Or(Get(Outcome(meEvents).value.data, "instancias"), Arr([])))
  {
    var greeted := Greeted(s, data, fallbackEmail, false, now);
    match Outcome(meEvents)
    case Success(env) => Merge(greeted, ContextPartial(env.data))
    case Failure(_) => greeted
  }

  /** The first commit of handleLoginSuccess, with what it leaves in storage. */
  method CommitLogin(store: Store, data: Value, a: Auth)
    requires store.Valid()
    modifies store`state, store`storage, store`rootAttrs, store`trace
    ensures store.Valid() && store.listeners == old(store.listeners)
    ensures store.state == Merge(old(store.state), LoginPartial(data, a))
    ensures store.storage == StepStorage(old(store.storage), PersistAuthEffect(a))
    ensures store.rootAttrs == old(store.rootAttrs)
  {
    store.SetState(Patch(LoginPartial(data, a)));
    AuthOnlyCommit(old(store.storage), old(store.rootAttrs), LoginPartial(data, a), store.state, store.listeners);
  }

  /** The optional `auth.me` hydration: the context on success, nothing on failure. */
  method HydrateContext(store: Store, events: seq<RaceEvent<Response>>) returns (sent: Value)
    requires store.Valid()
    modifies store`state, store`storage, store`rootAttrs, store`trace
    ensures store.Valid() && store.listeners == old(store.listeners)
    ensures store.storage == old(store.storage) && store.rootAttrs == old(store.rootAttrs)
    ensures sent == BuildRequestBody("auth.me", EmptyObj, true, old(store.state.auth))
    ensures Outcome(events).Success? ==> store.state == Merge(old(store.state), ContextPartial(Outcome(events).value.data))
    ensures Outcome(events).Failure? ==> store.state == old(store.state)
  {
    var result;
    result, sent := Post(store, "auth.me", events);
    if result.Success? {
      store.SetState(Patch(ContextPartial(result.value.data)));
      QuietCommit(ContextPartial(result.value.data), store.state, old(store.storage), old(store.rootAttrs), store.listeners);
    }
  }

  /**
   * handleLoginSuccess: commit the identity, greet, and, unless skipping,
   * fetch the workspace context. A reload afterwards restores exactly the
   * committed identity when it has a token, and finds nothing otherwise.
   */
  method HandleLoginSuccess(store: Store, data: Value, skipContext: bool, fallbackEmail: Option<string>,
                            meEvents: seq<RaceEvent<Response>>, now: int)
    returns (meSent: Option<Value>)
    requires store.Valid()
    modifies store`state, store`storage, store`rootAttrs, store`trace
    ensures store.Valid() && store.listeners == old(store.listeners)
    ensures var a := LoginIdentity(data, fallbackEmail);
      && store.storage == StepStorage(old(store.storage), PersistAuthEffect(a))
      && HydrationOf(store.storage) == (if HasToken(a) then Restore(a) else NothingStored)
    ensures store.rootAttrs == old(store.rootAttrs)
    ensures skipContext ==> meSent == None && store.state == Greeted(old(store.state), data, fallbackEmail, true, now)
    ensures !skipContext ==>
      && meSent == Some(BuildRequestBody("auth.me", EmptyObj, true, LoginIdentity(data, fallbackEmail)))
      && store.state == LoggedIn(old(store.state), data, fallbackEmail, meEvents, now)
  {
    GreetLogin(store, data, fallbackEmail, skipContext, now);
    if skipContext {
      meSent := None;
      return;
    }
    var sent := HydrateContext(store, meEvents);
    meSent := Some(sent);
  }

  /** The login commit and the greeting of handleLoginSuccess, with the session it persists. */
  method GreetLogin(store: Store, data: Value, fallbackEmail: Option<string>, skipContext: bool, now: int)
    requires store.Valid()
    modifies store`state, store`storage, store`rootAttrs, store`trace
    ensures store.Valid() && store.listeners == old(store.listeners)
    ensures var a := LoginIdentity(data, fallbackEmail);
      && store.storage == StepStorage(old(store.storage), PersistAuthEffect(a))
      && HydrationOf(store.storage) == (if HasToken(a) then Restore(a) else NothingStored)
    ensures store.rootAttrs == old(store.rootAttrs)
    ensures store.state == Greeted(old(store.state), data, fallbackEmail, skipContext, now)
  {
    var a := LoginIdentity(data, fallbackEmail);
    CommitLogin(store, data, a);
    PersistedSessionRestores(old(store.storage), a);
    store.ShowToast(Str(GreetingText(skipContext)), now);
  }

  /** The body of an `auth.login` call. */
  function Credentials(email: string, password: string): (r: Value)
    ensures Get(r, "email") == Str(email) && Get(r, "password") == Str(password)
    ensures r.Obj? && r.fields.Keys == {"email", "password"}
  {
    Obj(map["email" := Str(email), "password" := Str(password)])
  }

  /** The `try`/`catch` of the login form: the session on success, the error toast on failure. */
  method SettleLogin(store: Store, result: Result<Envelope, Value>, email: string,
                     meEvents: seq<RaceEvent<Response>>, now: int)
    requires store.Valid()
    modifies store`state, store`storage, store`rootAttrs, store`trace
    ensures store.Valid() && store.listeners == old(store.listeners)
    ensures store.rootAttrs == old(store.rootAttrs)
    ensures store.state.pending == old(store.state.pending)
    ensures result.Success? ==>
      var a := LoginIdentity(result.value.data, Some(email));
      && store.state.auth == a && store.state.currentView == "dados"
      && store.state.forms == ResetForms && store.state.chat == EmptyChat
      && store.state.toast == Some(Toast(Str("Sessão iniciada com sucesso."), "success", now))
      && store.storage == StepStorage(old(store.storage), PersistAuthEffect(a))
      && HydrationOf(store.storage) == (if HasToken(a) then Restore(a) else NothingStored)
    ensures result.Success? ==> store.state == LoggedIn(old(store.state), result.value.data, Some(email), meEvents, now)
    ensures result.Failure? ==>
      && store.state == old(store.state).(
           toast := Some(Toast(ErrorMessage(result.error, "Falha ao autenticar. Confira as credenciais."), "error", now)))
      && store.storage == old(store.storage)
  {
    if result.Success? {
      var _ := HandleLoginSuccess(store, result.value.data, false, Some(email), meEvents, now);
    } else {
      store.ShowToast(ErrorMessage(result.error, "Falha ao autenticar. Confira as credenciais."), now, "error");
    }
  }

  /** The success and failure states of a sent login, as the login form ends. */
  ghost predicate LoginSettled(s0: AppState, s: AppState, st0: map<string, string>, st: map<string, string>,
                               email: string, loginEvents: seq<RaceEvent<Response>>, meEvents: seq<RaceEvent<Response>>, now: int)
  {
    && s.pending == SetFlag(s0.pending, LoginFlag, false)
    && (Outcome(loginEvents).Success? ==>
         var a := LoginIdentity(Outcome(loginEvents).value.data, Some(email));
         && s.auth == a && s.currentView == "dados" && s.forms == ResetForms && s.chat == EmptyChat
         && HydrationOf(st) == (if HasToken(a) then Restore(a) else NothingStored)
         && st == StepStorage(st0, PersistAuthEffect(a))
         && s == LoggedIn(s0, Outcome(loginEvents).value.data, Some(email), meEvents, now).(
              pending := SetFlag(s0.pending, LoginFlag, false)))
    && (Outcome(loginEvents).Failure? ==>
         && s == s0.(
              pending := SetFlag(s0.pending, LoginFlag, false),
              forms := s0.forms.(loginEmail := email),
              toast := Some(Toast(ErrorMessage(Outcome(loginEvents).error, "Falha ao autenticar. Confira as credenciais."), "error", now)))
         && st == st0)
  }

  /**
   * The login form: blank credentials (after trimming) only raise an error
   * toast; otherwise `auth.login` is called without the auth block, and the
   * login flag is lowered whatever the outcome.
   */
  method SubmitLogin(store: Store, emailInput: string, passwordInput: string,
                     loginEvents: seq<RaceEvent<Response>>, meEvents: seq<RaceEvent<Response>>, now: int)
    returns (sent: Option<Value>, ghost dispatched: AppState)
    requires store.Valid()
    modifies store`state, store`storage, store`rootAttrs, store`trace
    ensures store.Valid() && store.listeners == old(store.listeners)
    ensures store.rootAttrs == old(store.rootAttrs)
    ensures Trim(emailInput) == "" || Trim(passwordInput) == "" ==>
      && sent == None
      && store.state == old(store.state).(toast := Some(Toast(Str("Informe e-mail e senha."), "error", now)))
      && store.storage == old(store.storage)
    ensures Trim(emailInput) != "" && Trim(passwordInput) != "" ==>
      var email := Trim(emailInput);
      && sent == Some(BuildRequestBody("auth.login", Credentials(email, Trim(passwordInput)), false, old(store.state.auth)))
      && dispatched.pending.login && dispatched.forms.loginEmail == email
      && LoginSettled(old(store.state), store.state, old(store.storage), store.storage, email, loginEvents, meEvents, now)
  {
    var email, password := Trim(emailInput), Trim(passwordInput);
    dispatched := store.state;
    if email == "" || password == "" {
      store.ShowToast(Str("Informe e-mail e senha."), now, "error");
      sent := None;
      return;
    }
    var body;
    body, dispatched := SendLogin(store, email, password, loginEvents, meEvents, now);
    sent := Some(body);
  }

  /** A login with non-blank credentials: the email drafted, `auth.login` sent, the outcome settled, the flag lowered. */
  method SendLogin(store: Store, email: string, password: string,
                   loginEvents: seq<RaceEvent<Response>>, meEvents: seq<RaceEvent<Response>>, now: int)
    returns (sent: Value, ghost dispatched: AppState)
    requires store.Valid()
    modifies store`state, store`storage, store`rootAttrs, store`trace
    ensures store.Valid() && store.listeners == old(store.listeners)
    ensures store.rootAttrs == old(store.rootAttrs)
    ensures sent == BuildRequestBody("auth.login", Credentials(email, password), false, old(store.state.auth))
    ensures dispatched.pending.login && dispatched.forms.loginEmail == email
    ensures LoginSettled(old(store.state), store.state, old(store.storage), store.storage, email, loginEvents, meEvents, now)
  {
    ghost var s0 := store.state;
    BeginDrafted(store, LoginFlag, store.state.forms.(loginEmail := email));
    dispatched := store.state;
    var result;
    result, sent := Post(store, "auth.login", loginEvents, Credentials(email, password), false);
    SettleLogin(store, result, email, meEvents, now);
    ghost var settled := store.state;
    FinishAction(store, LoginFlag, NoChange);
    assert store.state == settled.(pending := SetFlag(settled.pending, LoginFlag, false));
    FlagRoundTrip(s0.pending, LoginFlag);
    if result.Success? {
      LoggedInIgnoresDraft(s0, dispatched.pending, dispatched.forms, result.value.data, Some(email), meEvents, now,
                           SetFlag(s0.pending, LoginFlag, false));
    }
  }

  /** What the login commit resets, the pending flags and the forms, does not show in the state it leaves. */
  lemma LoggedInIgnoresDraft(s: AppState, pending: Pending, forms: Forms, data: Value, fallbackEmail: Option<string>,
                             meEvents: seq<RaceEvent<Response>>, now: int, q: Pending)
    ensures LoggedIn(s.(pending := pending, forms := forms), data, fallbackEmail, meEvents, now).(pending := q)
         == LoggedIn(s, data, fallbackEmail, meEvents, now).(pending := q)
  {
  }

  /** The data the demo button hands to handleLoginSuccess; the token carries the click time. */
  function DemoData(now: int): (r: Value)
    ensures Get(r, "session_token") == Str("demo-" + IntToString(now))
  {
    Obj(map["user_id" := Str("demo-user"), "email" := Str("demo@omr.studio"),
            "session_token" := Str("demo-" + IntToString(now))])
  }

  /** The demo button: a demo session, persisted so that a reload restores it, with no context call. */
  method EnterDemo(store: Store, now: int)
    requires store.Valid()
    modifies store`state, store`storage, store`rootAttrs, store`trace
    ensures store.Valid() && store.listeners == old(store.listeners)
    ensures store.rootAttrs == old(store.rootAttrs)
    ensures store.state.auth == Auth(Some(User(Some("demo-user"), Some("demo@omr.studio"))), Some("demo-" + IntToString(now)))
    ensures store.state.currentView == "dados"
    ensures store.state.toast == Some(Toast(Str("Sessão demo iniciada."), "success", now))
    ensures HydrationOf(store.storage) == Restore(store.state.auth)
    ensures store.state == Greeted(old(store.state), DemoData(now), Some("demo@omr.studio"), true, now)
    ensures store.storage == StepStorage(old(store.storage), PersistAuthEffect(store.state.auth))
  {
    DemoIdentity(now);
    var _ := HandleLoginSuccess(store, DemoData(now), true, Some("demo@omr.studio"), [], now);
  }

  /** The demo identity: the fixed demo user, and a token that always counts. */
  lemma DemoIdentity(now: int)
    ensures var a := LoginIdentity(DemoData(now), Some("demo@omr.studio"));
      a == Auth(Some(User(Some("demo-user"), Some("demo@omr.studio"))), Some("demo-" + IntToString(now)))
      && HasToken(a)
  {
    var d := DemoData(now);
    assert Get(d, "user_id") == Str("demo-user");
    assert Get(d, "email") == Str("demo@omr.studio");
  }
}
