/**
 * The application state record of the console and the shapes stored in it:
 * the session, the in-flight flags, the per-view drafts, the chat log, the
 * toast and the derived layout. A `Partial` names the top-level fields a
 * commit replaces; `Merge` is the shallow `Object.assign` of a commit.
 */
module Domain {

  import opened Wrappers
  import opened Js

  datatype User = User(id: Option<string>, email: Option<string>)

  /** `{user, sessionToken}`; the signed-out value has both null. */
  datatype Auth = Auth(user: Option<User>, sessionToken: Option<string>)

  const SignedOut: Auth := Auth(None, None)

  /** A session token counts only when it is a non-empty string (`auth?.sessionToken` truthy). */
  predicate HasToken(a: Auth) {
    a.sessionToken.Some? && a.sessionToken.value != ""
  }

  /** The named in-flight flags, one per guarded action. */
  datatype Pending = Pending(
    login: bool, dadosSave: bool, chatSend: bool,
    instRefresh: bool, instDisconnect: bool, instSave: bool, supportSend: bool)

  const AllIdle: Pending := Pending(false, false, false, false, false, false, false)

  datatype EmpresaDraft = EmpresaDraft(
    nome: string, tipo: string, horario_funcionamento: string, contatos_extras: string,
    endereco: string, observacoes: string, persona: string)

  datatype ProdutoDraft = ProdutoDraft(nome: string, descricao: string, preco: string)

  datatype FaqDraft = FaqDraft(pergunta: string, resposta: string)

  /** What the profile form submits: `{empresa, produtos, faqs}`. */
  datatype DadosPayload = DadosPayload(empresa: EmpresaDraft, produtos: seq<ProdutoDraft>, faqs: seq<FaqDraft>)

  /** What the connection-settings form submits. */
  datatype InstPayload = InstPayload(
    rejeitar_chamadas: bool, ignorar_grupos: bool, sempre_online: bool,
    ler_mensagens: bool, sincronizar_historico: bool, mensagem_rejeicao: string)

  /** `forms`: the login e-mail and the uncommitted drafts of each panel. */
  datatype Forms = Forms(
    loginEmail: string, dados: Option<DadosPayload>, instancias: Option<InstPayload>,
    support: string, chatPersona: string)

  /** The forms value that login and logout install. */
  const ResetForms: Forms := Forms("", None, None, "", "josi")

  datatype Role = UserRole | AgentRole

  datatype ChatMessage = ChatMessage(id: string, author: string, role: Role, message: Value)

  /** `chat`; `useDemo` is None once a reset has replaced the object by `{messages: []}`. */
  datatype Chat = Chat(messages: seq<ChatMessage>, useDemo: Option<bool>)

  const EmptyChat: Chat := Chat([], None)

  datatype Toast = Toast(message: Value, tone: string, ts: int)

  datatype Layout = Layout(breakpoint: string, isMobile: bool)

  datatype AppState = AppState(
    theme: string,
    currentView: string,
    auth: Auth,
    empresa: Value,
    instancias: Value,
    pending: Pending,
    forms: Forms,
    chat: Chat,
    onboardingStep: int,
    isTourVisible: bool,
    hasHydrated: bool,
    toast: Option<Toast>,
    isSignupOpen: bool,
    isDrawerOpen: bool,
    layout: Layout)

  /** The top-level fields one commit replaces; None leaves a field out of the partial. */
  datatype Partial = Partial(
    theme: Option<string>,
    currentView: Option<string>,
    auth: Option<Auth>,
    empresa: Option<Value>,
    instancias: Option<Value>,
    pending: Option<Pending>,
    forms: Option<Forms>,
    chat: Option<Chat>,
    onboardingStep: Option<int>,
    isTourVisible: Option<bool>,
    hasHydrated: Option<bool>,
    toast: Option<Option<Toast>>,
    isSignupOpen: Option<bool>,
    isDrawerOpen: Option<bool>,
    layout: Option<Layout>)

  const NoChange: Partial :=
    Partial(None, None, None, None, None, None, None, None, None, None, None, None, None, None, None)

  /** `Object.assign(state, p)`: every field the partial names is replaced, every other one kept. */
  function Merge(s: AppState, p: Partial): AppState {
    AppState(
      p.theme.GetOr(s.theme),
      p.currentView.GetOr(s.currentView),
      p.auth.GetOr(s.auth),
      p.empresa.GetOr(s.empresa),
      p.instancias.GetOr(s.instancias),
      p.pending.GetOr(s.pending),
      p.forms.GetOr(s.forms),
      p.chat.GetOr(s.chat),
      p.onboardingStep.GetOr(s.onboardingStep),
      p.isTourVisible.GetOr(s.isTourVisible),
      p.hasHydrated.GetOr(s.hasHydrated),
      p.toast.GetOr(s.toast),
      p.isSignupOpen.GetOr(s.isSignupOpen),
      p.isDrawerOpen.GetOr(s.isDrawerOpen),
      p.layout.GetOr(s.layout))
  }

  /** A commit naming no field changes nothing. */
  lemma MergeNoChange(s: AppState)
    ensures Merge(s, NoChange) == s
  {
  }

  /** Committing the same partial twice is committing it once. */
  lemma MergeIdempotent(s: AppState, p: Partial)
    ensures Merge(Merge(s, p), p) == Merge(s, p)
  {
  }

  // ---------------------------------------------------------------------------
  // The JSON objects the drafts become when they are sent or spread into an entity.

  function EmpresaFields(e: EmpresaDraft): map<string, Value> {
    map[
      "nome" := Str(e.nome), "tipo" := Str(e.tipo),
      "horario_funcionamento" := Str(e.horario_funcionamento),
      "contatos_extras" := Str(e.contatos_extras), "endereco" := Str(e.endereco),
      "observacoes" := Str(e.observacoes), "persona" := Str(e.persona)]
  }

  function ProdutoToJs(p: ProdutoDraft): Value {
    Obj(map["nome" := Str(p.nome), "descricao" := Str(p.descricao), "preco" := Str(p.preco)])
  }

  function FaqToJs(f: FaqDraft): Value {
    Obj(map["pergunta" := Str(f.pergunta), "resposta" := Str(f.resposta)])
  }

  function ProdutosToJs(ps: seq<ProdutoDraft>): (r: seq<Value>)
    ensures |r| == |ps| && forall i :: 0 <= i < |ps| ==> r[i] == ProdutoToJs(ps[i])
  {
    seq(|ps|, i requires 0 <= i < |ps| => ProdutoToJs(ps[i]))
  }

  function FaqsToJs(fs: seq<FaqDraft>): (r: seq<Value>)
    ensures |r| == |fs| && forall i :: 0 <= i < |fs| ==> r[i] == FaqToJs(fs[i])
  {
    seq(|fs|, i requires 0 <= i < |fs| => FaqToJs(fs[i]))
  }

  function DadosToJs(d: DadosPayload): Value {
    Obj(map[
      "empresa" := Obj(EmpresaFields(d.empresa)),
      "produtos" := Arr(ProdutosToJs(d.produtos)),
      "faqs" := Arr(FaqsToJs(d.faqs))])
  }

  function InstFields(p: InstPayload): map<string, Value> {
    map[
      "rejeitar_chamadas" := Bool(p.rejeitar_chamadas), "ignorar_grupos" := Bool(p.ignorar_grupos),
      "sempre_online" := Bool(p.sempre_online), "ler_mensagens" := Bool(p.ler_mensagens),
      "sincronizar_historico" := Bool(p.sincronizar_historico),
      "mensagem_rejeicao" := Str(p.mensagem_rejeicao)]
  }
}
