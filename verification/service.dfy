/**
 * The data-access layer over the hosted database: the row mappers, string
 * sanitising, error translation and tolerance, and the two workspace flows.
 *
 * The database client and its auth calls are not modelled; each query is
 * answered by a `Reply` (its `data` and `error`, as the client resolves
 * them) drawn from a `Backend`, and the flows report the calls they make,
 * in order, so that what is and is not contacted can be stated.
 */
module Service {
  import opened Wrappers
  import opened Js

  /** `createClientError(code, message)`: an `Error` carrying a code. */
  datatype ClientError = ClientError(code: Value, message: Value)

  /** `createClientError(error.code || fallbackCode, error.message || fallbackMessage)`. */
  function Translate(error: Value, fallbackCode: string, fallbackMessage: string): (r: ClientError)
    ensures Truthy(Get(error, "code")) ==> r.code == Get(error, "code")
    ensures !Truthy(Get(error, "code")) ==> r.code == Str(fallbackCode)
    ensures Truthy(Get(error, "message")) ==> r.message == Get(error, "message")
    ensures !Truthy(Get(error, "message")) ==> r.message == Str(fallbackMessage)
  {
    ClientError(Or(Get(error, "code"), Str(fallbackCode)), Or(Get(error, "message"), Str(fallbackMessage)))
  }

  /** A translated error always carries a truthy code, and keeps the original's own code when it has one. */
  lemma TranslateKeepsCode(error: Value, fallbackCode: string, fallbackMessage: string)
    requires fallbackCode != ""
    ensures Truthy(Translate(error, fallbackCode, fallbackMessage).code)
  {
  }

  // ---------------------------------------------------------------------------
  // Pure helpers

  /** `sanitizeString`: strings are trimmed, null and undefined become '', anything else is kept. */
  function SanitizeString(v: Value): (r: Value)
    ensures v.Str? ==> r.Str? && |r.s| <= |v.s|
    ensures Nullish(v) ==> r == Str("")
    ensures !v.Str? && !Nullish(v) ==> r == v
  {
    if v.Str? then Str(Trim(v.s)) else Coalesce(v, Str(""))
  }

  /**
   * A sanitised string is the input without its leading and trailing white
   * space: a slice of it that neither starts nor ends with white space, and
   * empty exactly when the input is all white space.
   */
  lemma SanitizeTrims(v: Value)
    requires v.Str?
    ensures var r := SanitizeString(v);
      && r == Str(Trim(v.s))
      && r.s == v.s[LeadingSpaces(v.s)..LeadingSpaces(v.s) + |r.s|]
      && (r.s == [] || (!IsSpace(r.s[0]) && !IsSpace(r.s[|r.s| - 1])))
      && (r.s == [] <==> forall i :: 0 <= i < |v.s| ==> IsSpace(v.s[i]))
  {
    TrimSlice(v.s);
  }

  /** Sanitising twice is sanitising once. */
  lemma SanitizeIdempotent(v: Value)
    ensures SanitizeString(SanitizeString(v)) == SanitizeString(v)
  {
    if v.Str? {
      TrimIdempotent(v.s);
    }
  }

  /** The characters parsePreco keeps: digits, '.', ',' and '-'. */
  predicate IsPriceChar(c: char) {
    ('0' <= c <= '9') || c == '.' || c == ',' || c == '-'
  }

  /** `.replace(/[^0-9.,-]/g, '')`. */
  function PriceChars(s: string): (r: string)
    ensures |r| <= |s|
    ensures forall i :: 0 <= i < |r| ==> IsPriceChar(r[i])
  {
    if s == [] then []
    else if IsPriceChar(s[0]) then [s[0]] + PriceChars(s[1..]) else PriceChars(s[1..])
  }

  /** Every price character of the input is kept, as many times as it occurs. */
  lemma {:induction false} PriceCharsCounts(s: string)
    ensures forall c :: IsPriceChar(c) ==> multiset(PriceChars(s))[c] == multiset(s)[c]
  {
    if s != [] {
      assert s == [s[0]] + s[1..];
      PriceCharsCounts(s[1..]);
    }
  }

  /** `.replace(',', '.')`: only the first comma is replaced. */
  function ReplaceFirstComma(s: string): (r: string)
    ensures |r| == |s|
    ensures ',' !in s ==> r == s
  {
    if s == [] then []
    else if s[0] == ',' then "." + s[1..] else [s[0]] + ReplaceFirstComma(s[1..])
  }

  /** One comma fewer and one point more when there is a comma; every other character as many times as before. */
  lemma {:induction false} ReplaceFirstCommaCounts(s: string)
    ensures var r := ReplaceFirstComma(s);
      && (',' in s ==> multiset(r)[','] == multiset(s)[','] - 1 && multiset(r)['.'] == multiset(s)['.'] + 1)
      && (forall c :: c != ',' && c != '.' ==> multiset(r)[c] == multiset(s)[c])
  {
    if s != [] {
      assert s == [s[0]] + s[1..];
      if s[0] == ',' {
        assert ReplaceFirstComma(s) == ['.'] + s[1..];
      } else {
        ReplaceFirstCommaCounts(s[1..]);
      }
    }
  }

  /**
   * The string step of parsePreco: null and undefined give none; anything
   * else is stringified, stripped to price characters, and its first comma
   * becomes a decimal point.
   */
  function NormalizePreco(v: Value): (r: Option<string>)
    ensures r.None? <==> Nullish(v)
  {
    if Nullish(v) then None else Some(ReplaceFirstComma(PriceChars(ToStr(v))))
  }

  /** A normalised price holds only price characters and is no longer than the input's text. */
  lemma NormalizePrecoChars(v: Value)
    requires !Nullish(v)
    ensures var r := NormalizePreco(v).value;
      |r| <= |ToStr(v)| && forall i :: 0 <= i < |r| ==> IsPriceChar(r[i])
  {
    PriceCharsAfterReplace(PriceChars(ToStr(v)));
  }

  /** A normalised price keeps every digit of the input's text and has one comma fewer. */
  lemma NormalizePrecoCounts(v: Value)
    requires !Nullish(v)
    ensures var r := NormalizePreco(v).value;
      && (',' in ToStr(v) ==> multiset(r)[','] == multiset(ToStr(v))[','] - 1)
      && (forall c :: '0' <= c <= '9' ==> multiset(r)[c] == multiset(ToStr(v))[c])
  {
    PriceTextCounts(ToStr(v));
  }

  /** The counting facts of a normalised price, for its text. */
  lemma PriceTextCounts(text: string)
    ensures var r := ReplaceFirstComma(PriceChars(text));
      && (',' in text ==> multiset(r)[','] == multiset(text)[','] - 1)
      && (forall c :: '0' <= c <= '9' ==> multiset(r)[c] == multiset(text)[c])
  {
    var kept := PriceChars(text);
    PriceCharsCounts(text);
    ReplaceFirstCommaCounts(kept);
    if ',' in text {
      assert ',' in multiset(text);
      assert IsPriceChar(',');
      assert ',' in multiset(kept);
    }
  }

  lemma PriceCharsAfterReplace(s: string)
    requires forall i :: 0 <= i < |s| ==> IsPriceChar(s[i])
    ensures forall i :: 0 <= i < |ReplaceFirstComma(s)| ==> IsPriceChar(ReplaceFirstComma(s)[i])
  {
    var r := ReplaceFirstComma(s);
    ReplaceFirstCommaCounts(s);
    forall i | 0 <= i < |r|
      ensures IsPriceChar(r[i])
    {
      assert r[i] in multiset(r);
      if r[i] != ',' && r[i] != '.' {
        assert multiset(s)[r[i]] > 0;
        var j :| 0 <= j < |s| && s[j] == r[i];
      }
    }
  }

  /** `mapProdutoRow`: texts default to '', the price becomes its string form or ''. */
  function MapProdutoRow(row: Value): (r: Value)
    ensures r.Obj? && r.fields.Keys == {"id", "nome", "descricao", "preco"}
    ensures Get(r, "id") == Get(row, "id")
    ensures !Truthy(Get(row, "nome")) ==> Get(r, "nome") == Str("")
    ensures Truthy(Get(row, "nome")) ==> Get(r, "nome") == Get(row, "nome")
    ensures !Truthy(Get(row, "descricao")) ==> Get(r, "descricao") == Str("")
    ensures Truthy(Get(row, "descricao")) ==> Get(r, "descricao") == Get(row, "descricao")
    ensures Get(r, "preco").Str?
    ensures !Nullish(Get(row, "preco")) ==> Get(r, "preco") == Str(ToStr(Get(row, "preco")))
    ensures Nullish(Get(row, "preco")) ==> Get(r, "preco") == Str("")
    ensures Get(row, "preco").Str? ==> Get(r, "preco") == Get(row, "preco")
  {
    var preco := Get(row, "preco");
    Obj(map["id" := Get(row, "id"),
            "nome" := Or(Get(row, "nome"), Str("")),
            "descricao" := Or(Get(row, "descricao"), Str("")),
            "preco" := if Nullish(preco) then Str("") else Str(ToStr(preco))])
  }

  /** `mapFaqRow`: both texts default to ''. */
  function MapFaqRow(row: Value): (r: Value)
    ensures r.Obj? && r.fields.Keys == {"id", "pergunta", "resposta"}
    ensures Get(r, "id") == Get(row, "id")
    ensures Truthy(Get(r, "pergunta")) <==> Truthy(Get(row, "pergunta"))
    ensures Truthy(Get(r, "resposta")) <==> Truthy(Get(row, "resposta"))
    ensures !Truthy(Get(row, "pergunta")) ==> Get(r, "pergunta") == Str("")
    ensures !Truthy(Get(row, "resposta")) ==> Get(r, "resposta") == Str("")
    ensures Truthy(Get(row, "pergunta")) ==> Get(r, "pergunta") == Get(row, "pergunta")
    ensures Truthy(Get(row, "resposta")) ==> Get(r, "resposta") == Get(row, "resposta")
  {
    Obj(map["id" := Get(row, "id"),
            "pergunta" := Or(Get(row, "pergunta"), Str("")),
            "resposta" := Or(Get(row, "resposta"), Str(""))])
  }

  /**
   * The `last_event` of an instance: '' when falsy, a string as is, the
   * string `message` of an object, and otherwise the JSON text of the
   * value, which `stringify` stands for.
   */
  function LastEvent(ev: Value, stringify: Value -> string): (r: string)
    ensures !Truthy(ev) ==> r == ""
    ensures Truthy(ev) && ev.Str? ==> r == ev.s
    ensures Truthy(ev) && ev.Obj? && Get(ev, "message").Str? ==> r == Get(ev, "message").s
    ensures Truthy(ev) && !ev.Str? && !Get(ev, "message").Str? ==> r == stringify(ev)
  {
    if !Truthy(ev) then ""
    else if ev.Str? then ev.s
    else if Get(ev, "message").Str? then Get(ev, "message").s
    else stringify(ev)
  }

  /** The settings of an instance row: the row's settings when that is a non-null object, otherwise {}. */
  function SettingsOf(row: Value): (r: Value)
    ensures IsObjectLike(r)
    ensures !IsObjectLike(Get(row, "settings")) ==> r == EmptyObj
    ensures Truthy(Get(row, "settings")) && IsObjectLike(Get(row, "settings")) ==> r == Get(row, "settings")
  {
    var s := Get(row, "settings");
    if Truthy(s) && IsObjectLike(s) then s else EmptyObj
  }

  const Toggles: seq<string> :=
    ["rejeitar_chamadas", "ignorar_grupos", "sempre_online", "ler_mensagens", "sincronizar_historico"]

  /** The five settings toggles, each `Boolean(settings.x)`. */
  function ToggleFields(settings: Value): (m: map<string, Value>)
    ensures forall t :: t in Toggles <==> t in m
    ensures forall t :: t in m ==> m[t] == Bool(Truthy(Get(settings, t)))
  {
    map t | t in Toggles :: Bool(Truthy(Get(settings, t)))
  }

  /** The fields of a mapped instance other than the toggles. */
  function InstanciaFields(row: Value, settings: Value, stringify: Value -> string): (m: map<string, Value>)
    ensures m.Keys == {"id", "empresa_id", "evolution_instance_id", "status",
      "mensagem_rejeicao", "last_event", "logs", "qr_svg"}
    ensures forall t :: t in Toggles ==> t !in m
  {
    var logs := Get(settings, "logs");
    map[
      "id" := Get(row, "id"),
      "empresa_id" := Get(row, "empresa_id"),
      "evolution_instance_id" := Or(Get(row, "evolution_instance_id"), Str("")),
      "status" := Or(Get(row, "status"), Str("desconectado")),
      "mensagem_rejeicao" := Or(Get(settings, "mensagem_rejeicao"), Str("")),
      "last_event" := Str(LastEvent(Get(row, "last_event"), stringify)),
      "logs" := if logs.Arr? then logs else Arr([]),
      "qr_svg" := Or(Get(settings, "qr_svg"), Null)]
  }

  /** `mapInstanciaRow`. */
  function MapInstanciaRow(row: Value, stringify: Value -> string): (r: Value)
    ensures r.Obj?
    ensures forall t :: t in Toggles ==> Get(r, t) == Bool(Truthy(Get(SettingsOf(row), t)))
    ensures !Truthy(Get(row, "status")) ==> Get(r, "status") == Str("desconectado")
    ensures Get(r, "logs").Arr?
    ensures Get(r, "last_event") == Str(LastEvent(Get(row, "last_event"), stringify))
    ensures !IsObjectLike(Get(row, "settings")) ==>
      && (forall t :: t in Toggles ==> Get(r, t) == Bool(false))
      && Get(r, "logs") == Arr([]) && Get(r, "qr_svg") == Null && Get(r, "mensagem_rejeicao") == Str("")
  {
    var settings := SettingsOf(row);
    Obj(ToggleFields(settings) + InstanciaFields(row, settings, stringify))
  }

  /** A mapped instance holds exactly the eight instance fields and the five toggles. */
  lemma MapInstanciaRowKeys(row: Value, stringify: Value -> string)
    ensures MapInstanciaRow(row, stringify).fields.Keys ==
      {"id", "empresa_id", "evolution_instance_id", "status",
       "mensagem_rejeicao", "last_event", "logs", "qr_svg"} + set t | t in Toggles
  {
    var toggles := ToggleFields(SettingsOf(row));
    assert MapInstanciaRow(row, stringify).fields == toggles + InstanciaFields(row, SettingsOf(row), stringify);
    assert toggles.Keys == set t | t in Toggles;
  }

  /** A mapped instance keeps the row's ids and status, with defaults. */
  lemma MapInstanciaRowKeeps(row: Value, stringify: Value -> string)
    ensures var r := MapInstanciaRow(row, stringify);
      && Get(r, "id") == Get(row, "id") && Get(r, "empresa_id") == Get(row, "empresa_id")
      && Get(r, "evolution_instance_id") == Or(Get(row, "evolution_instance_id"), Str(""))
      && (Truthy(Get(row, "status")) ==> Get(r, "status") == Get(row, "status"))
  {
    var fields := InstanciaFields(row, SettingsOf(row), stringify);
    assert MapInstanciaRow(row, stringify).fields == ToggleFields(SettingsOf(row)) + fields;
  }

  /** A mapped instance takes its rejection text, QR code and logs from the settings, with defaults. */
  lemma MapInstanciaRowSettings(row: Value, stringify: Value -> string)
    ensures var r := MapInstanciaRow(row, stringify);
      && Get(r, "mensagem_rejeicao") == Or(Get(SettingsOf(row), "mensagem_rejeicao"), Str(""))
      && Get(r, "qr_svg") == Or(Get(SettingsOf(row), "qr_svg"), Null)
      && (Get(SettingsOf(row), "logs").Arr? ==> Get(r, "logs") == Get(SettingsOf(row), "logs"))
      && (!Get(SettingsOf(row), "logs").Arr? ==> Get(r, "logs") == Arr([]))
  {
    var fields := InstanciaFields(row, SettingsOf(row), stringify);
    assert MapInstanciaRow(row, stringify).fields == ToggleFields(SettingsOf(row)) + fields;
  }

  /** `(rows || []).map(mapper)`: the rows of a reply, when the reply holds an array. */
  function RowsOf(data: Value): (r: seq<Value>)
    ensures data.Arr? ==> r == data.items
    ensures !data.Arr? ==> r == []
  {
    if data.Arr? then data.items else []
  }

  // ---------------------------------------------------------------------------
  // The backend: one reply per query, and the calls a flow makes

  /** What the client resolves a query to. */
  datatype Reply = Reply(data: Value, error: Value)

  /** The replies of the hosted database, one per query the flows can make. */
  datatype Backend = Backend(
    getUser: Reply,
    upsertUsuario: Reply,
    selectUsuario: Reply,
    selectEmpresa: Reply,
    lookupEmpresa: Reply,
    updateEmpresa: Reply,
    insertEmpresa: Reply,
    deleteProdutos: Reply,
    insertProdutos: Reply,
    deleteFaqs: Reply,
    insertFaqs: Reply,
    selectProdutos: Reply,
    selectFaqs: Reply,
    selectInstancias: Reply)

  datatype Call =
    | GetUser
    | UpsertUsuario(row: Value)
    | SelectUsuario
    | SelectEmpresa
    | LookupEmpresa
    | UpdateEmpresa(fields: Value)
    | InsertEmpresa(fields: Value)
    | DeleteProdutos
    | InsertProdutos(rows: seq<Value>)
    | DeleteFaqs
    | InsertFaqs(rows: seq<Value>)
    | SelectProdutos
    | SelectFaqs
    | SelectInstancias

  /** Calls that read or write a company or its children. */
  predicate TouchesEmpresa(c: Call) {
    !(c.GetUser? || c.UpsertUsuario? || c.SelectUsuario?)
  }

  /** Calls that read or write a company's products, FAQs or instances. */
  predicate TouchesChildren(c: Call) {
    c.DeleteProdutos? || c.InsertProdutos? || c.DeleteFaqs? || c.InsertFaqs?
    || c.SelectProdutos? || c.SelectFaqs? || c.SelectInstancias?
  }

  const AuthRequired: ClientError := ClientError(Str("AUTH_REQUIRED"), Str("Sessão expirada. Faça login novamente."))

  /** `getAuthenticatedUser`: a provider error is translated; no user is AUTH_REQUIRED. */
  function AuthenticatedUser(reply: Reply): (r: Result<Value, ClientError>)
    ensures r.Success? <==> !Truthy(reply.error) && Truthy(Get(reply.data, "user"))
    ensures r.Success? ==> r.value == Get(reply.data, "user")
    ensures Truthy(reply.error) ==> r == Failure(Translate(reply.error, "AUTH_ERROR", "Falha ao consultar sessão."))
    ensures !Truthy(reply.error) && !Truthy(Get(reply.data, "user")) ==> r == Failure(AuthRequired)
  {
    if Truthy(reply.error) then Failure(Translate(reply.error, "AUTH_ERROR", "Falha ao consultar sessão."))
    else if !Truthy(Get(reply.data, "user")) then Failure(AuthRequired)
    else Success(Get(reply.data, "user"))
  }

  /** The row ensureUsuarioRecord upserts: the id, and the first truthy email or null. */
  function UsuarioRow(user: Value, overrides: Value): (r: Value)
    ensures Get(r, "id") == Get(user, "id")
    ensures Truthy(Get(overrides, "email")) ==> Get(r, "email") == Get(overrides, "email")
  {
    Obj(map["id" := Get(user, "id"),
            "email" := Or(Get(overrides, "email"), Or(Get(user, "email"), Or(Get(Get(user, "user_metadata"), "email"), Null)))])
  }

  /** An error the flow goes past: none, or one whose code is the tolerated one. */
  predicate Tolerated(error: Value, code: string) {
    !Truthy(error) || Get(error, "code") == Str(code)
  }

  /** What ensureUsuarioRecord resolves to, or rejects with. */
  function UsuarioRecordOf(user: Value, overrides: Value, backend: Backend): Result<Value, ClientError> {
    if !Truthy(Get(user, "id")) then Success(Null)
    else if !Tolerated(backend.upsertUsuario.error, "23505") then
      Failure(Translate(backend.upsertUsuario.error, "INTERNAL_ERROR", "Erro ao sincronizar usuário."))
    else if !Tolerated(backend.selectUsuario.error, "PGRST116") then
      Failure(Translate(backend.selectUsuario.error, "INTERNAL_ERROR", "Erro ao sincronizar usuário."))
    else Success(Or(backend.selectUsuario.data, UsuarioRow(user, overrides)))
  }

  /**
   * `ensureUsuarioRecord`: nothing without a user id; otherwise upsert, then
   * read back. A duplicate-key upsert (23505) and a no-row read (PGRST116)
   * are tolerated; any other error is rethrown with its own code or
   * INTERNAL_ERROR. The result is the stored row, or the upserted one.
   */
  method EnsureUsuarioRecord(user: Value, overrides: Value, backend: Backend)
    returns (r: Result<Value, ClientError>, calls: seq<Call>)
    ensures !Truthy(Get(user, "id")) ==> r == Success(Null) && calls == []
    ensures Truthy(Get(user, "id")) ==> |calls| >= 1 && calls[0] == UpsertUsuario(UsuarioRow(user, overrides))
    ensures Truthy(Get(user, "id")) ==>
      (r.Failure? <==> (!Tolerated(backend.upsertUsuario.error, "23505")
                        || !Tolerated(backend.selectUsuario.error, "PGRST116")))
    ensures Truthy(Get(user, "id")) && !Tolerated(backend.upsertUsuario.error, "23505") ==>
      r == Failure(Translate(backend.upsertUsuario.error, "INTERNAL_ERROR", "Erro ao sincronizar usuário."))
      && calls == [UpsertUsuario(UsuarioRow(user, overrides))]
    ensures Truthy(Get(user, "id")) && Tolerated(backend.upsertUsuario.error, "23505")
            && !Tolerated(backend.selectUsuario.error, "PGRST116") ==>
      r == Failure(Translate(backend.selectUsuario.error, "INTERNAL_ERROR", "Erro ao sincronizar usuário."))
    ensures r.Success? && Truthy(Get(user, "id")) ==>
      r.value == Or(backend.selectUsuario.data, UsuarioRow(user, overrides))
    ensures r == UsuarioRecordOf(user, overrides, backend)
    ensures forall c :: c in calls ==> !TouchesEmpresa(c)
  {
    if !Truthy(Get(user, "id")) {
      return Success(Null), [];
    }
    var row := UsuarioRow(user, overrides);
    calls := [UpsertUsuario(row)];
    var upsert := backend.upsertUsuario;
    if !Tolerated(upsert.error, "23505") {
      return Failure(Translate(upsert.error, "INTERNAL_ERROR", "Erro ao sincronizar usuário.")), calls;
    }
    calls := calls + [SelectUsuario];
    var fetched := backend.selectUsuario;
    if !Tolerated(fetched.error, "PGRST116") {
      return Failure(Translate(fetched.error, "INTERNAL_ERROR", "Erro ao sincronizar usuário.")), calls;
    }
    r := Success(Or(fetched.data, row));
  }

  // ---------------------------------------------------------------------------
  // fetchWorkspaceContext

  function MapProdutoRows(rows: seq<Value>): (r: seq<Value>)
    ensures |r| == |rows| && forall i :: 0 <= i < |rows| ==> r[i] == MapProdutoRow(rows[i])
  {
    seq(|rows|, i requires 0 <= i < |rows| => MapProdutoRow(rows[i]))
  }

  function MapFaqRows(rows: seq<Value>): (r: seq<Value>)
    ensures |r| == |rows| && forall i :: 0 <= i < |rows| ==> r[i] == MapFaqRow(rows[i])
  {
    seq(|rows|, i requires 0 <= i < |rows| => MapFaqRow(rows[i]))
  }

  function MapInstanciaRows(rows: seq<Value>, stringify: Value -> string): (r: seq<Value>)
    ensures |r| == |rows| && forall i :: 0 <= i < |rows| ==> r[i] == MapInstanciaRow(rows[i], stringify)
  {
    seq(|rows|, i requires 0 <= i < |rows| => MapInstanciaRow(rows[i], stringify))
  }

  /** The company a workspace reports: the row's texts defaulted, the persona defaulting to josi. */
  function EmpresaOfRow(row: Value, produtos: seq<Value>, faqs: seq<Value>): (r: Value)
    ensures Get(r, "id") == Get(row, "id")
    ensures Get(r, "persona") == Or(Get(row, "persona"), Str("josi")) && Truthy(Get(r, "persona"))
    ensures Get(r, "produtos") == Arr(produtos) && Get(r, "faqs") == Arr(faqs)
    ensures !Truthy(Get(row, "nome")) ==> Get(r, "nome") == Str("")
  {
    Obj(map[
      "id" := Get(row, "id"),
      "user_id" := Get(row, "user_id"),
      "nome" := Or(Get(row, "nome"), Str("")),
      "tipo" := Or(Get(row, "tipo"), Str("")),
      "horario_funcionamento" := Or(Get(row, "horario_funcionamento"), Str("")),
      "contatos_extras" := Or(Get(row, "contatos_extras"), Str("")),
      "endereco" := Or(Get(row, "endereco"), Str("")),
      "observacoes" := Or(Get(row, "observacoes"), Str("")),
      "persona" := Or(Get(row, "persona"), Str("josi")),
      "produtos" := Arr(produtos),
      "faqs" := Arr(faqs),
      "updated_at" := Or(Get(row, "updated_at"), Or(Get(row, "created_at"), Null))])
  }

  /** `empresas?.[0] || null`: the first company row of a reply. */
  function FirstRow(data: Value): Value {
    Or(At(data, 0), Null)
  }

  /** Calls that write anything other than the user record. */
  predicate WritesWorkspace(c: Call) {
    c.UpdateEmpresa? || c.InsertEmpresa? || c.DeleteProdutos? || c.InsertProdutos? || c.DeleteFaqs? || c.InsertFaqs?
  }

  /** The children of a company, as read. */
  datatype Children = Children(produtos: seq<Value>, faqs: seq<Value>, instancias: seq<Value>)

  /** The first of the three child reads that fails, its error translated. */
  function ChildReadError(backend: Backend): (e: Option<ClientError>)
    ensures e.None? <==>
      !Truthy(backend.selectProdutos.error) && !Truthy(backend.selectFaqs.error) && !Truthy(backend.selectInstancias.error)
  {
    if Truthy(backend.selectProdutos.error) then
      Some(Translate(backend.selectProdutos.error, "INTERNAL_ERROR", "Erro ao carregar produtos."))
    else if Truthy(backend.selectFaqs.error) then
      Some(Translate(backend.selectFaqs.error, "INTERNAL_ERROR", "Erro ao carregar FAQs."))
    else if Truthy(backend.selectInstancias.error) then
      Some(Translate(backend.selectInstancias.error, "INTERNAL_ERROR", "Erro ao carregar instâncias."))
    else None
  }

  /** The children of a company as fetchWorkspaceContext reads them, or the first read's error. */
  function ChildrenOf(backend: Backend, stringify: Value -> string): Result<Children, ClientError> {
    match ChildReadError(backend)
    case Some(e) => Failure(e)
    case None => Success(Children(MapProdutoRows(RowsOf(backend.selectProdutos.data)),
      MapFaqRows(RowsOf(backend.selectFaqs.data)), MapInstanciaRows(RowsOf(backend.selectInstancias.data), stringify)))
  }

  /** The three child reads of fetchWorkspaceContext, in order, stopping at the first error. */
  method ReadChildren(backend: Backend, stringify: Value -> string)
    returns (r: Result<Children, ClientError>, calls: seq<Call>)
    ensures forall c :: c in calls ==> c.SelectProdutos? || c.SelectFaqs? || c.SelectInstancias?
    ensures r.Failure? <==>
      Truthy(backend.selectProdutos.error) || Truthy(backend.selectFaqs.error) || Truthy(backend.selectInstancias.error)
    ensures calls == [SelectProdutos] + (
      if Truthy(backend.selectProdutos.error) then []
      else [SelectFaqs] + (if Truthy(backend.selectFaqs.error) then [] else [SelectInstancias]))
    ensures Truthy(backend.selectProdutos.error) ==>
      r == Failure(Translate(backend.selectProdutos.error, "INTERNAL_ERROR", "Erro ao carregar produtos."))
    ensures !Truthy(backend.selectProdutos.error) && Truthy(backend.selectFaqs.error) ==>
      r == Failure(Translate(backend.selectFaqs.error, "INTERNAL_ERROR", "Erro ao carregar FAQs."))
    ensures !Truthy(backend.selectProdutos.error) && !Truthy(backend.selectFaqs.error) && Truthy(backend.selectInstancias.error) ==>
      r == Failure(Translate(backend.selectInstancias.error, "INTERNAL_ERROR", "Erro ao carregar instâncias."))
    ensures r == ChildrenOf(backend, stringify)
    ensures r.Success? ==> r.value == Children(MapProdutoRows(RowsOf(backend.selectProdutos.data)),
      MapFaqRows(RowsOf(backend.selectFaqs.data)), MapInstanciaRows(RowsOf(backend.selectInstancias.data), stringify))
  {
    calls := [SelectProdutos];
    if Truthy(backend.selectProdutos.error) {
      return Failure(Translate(backend.selectProdutos.error, "INTERNAL_ERROR", "Erro ao carregar produtos.")), calls;
    }
    var produtos := MapProdutoRows(RowsOf(backend.selectProdutos.data));
    calls := calls + [SelectFaqs];
    if Truthy(backend.selectFaqs.error) {
      return Failure(Translate(backend.selectFaqs.error, "INTERNAL_ERROR", "Erro ao carregar FAQs.")), calls;
    }
    var faqs := MapFaqRows(RowsOf(backend.selectFaqs.data));
    calls := calls + [SelectInstancias];
    if Truthy(backend.selectInstancias.error) {
      return Failure(Translate(backend.selectInstancias.error, "INTERNAL_ERROR", "Erro ao carregar instâncias.")), calls;
    }
    r := Success(Children(produtos, faqs, MapInstanciaRows(RowsOf(backend.selectInstancias.data), stringify)));
  }

  /** The object fetchWorkspaceContext resolves to. */
  function Context(user: Value, usuario: Value, empresa: Value, instancias: seq<Value>): (r: Value)
    ensures r.Obj? && r.fields.Keys == {"user", "usuario", "empresa", "instancias"}
    ensures Get(r, "empresa") == empresa && Get(r, "instancias") == Arr(instancias) && Get(r, "usuario") == usuario
    ensures Get(r, "user") == Obj(map["id" := Get(user, "id"), "email" := Get(user, "email")])
  {
    Obj(map[
      "user" := Obj(map["id" := Get(user, "id"), "email" := Get(user, "email")]),
      "usuario" := usuario,
      "empresa" := empresa,
      "instancias" := Arr(instancias)])
  }

  /** The user record a fetch reports: the ensured record, or null when ensuring it failed. */
  function UsuarioOrNull(user: Value, backend: Backend): Value {
    var ensured := UsuarioRecordOf(user, EmptyObj, backend);
    if ensured.Success? then ensured.value else Null
  }

  /** The context of a user whose company row was found: the company with its children, or the first child read's error. */
  function CompanyContextOf(user: Value, usuario: Value, row: Value, backend: Backend, stringify: Value -> string)
    : (r: Result<Value, ClientError>)
    ensures r.Failure? <==> ChildReadError(backend).Some?
    ensures r.Failure? ==> r.error == ChildReadError(backend).value
    ensures r.Success? ==>
      && Get(r.value, "usuario") == usuario && Get(Get(r.value, "user"), "id") == Get(user, "id")
      && Get(r.value, "empresa") == EmpresaOfRow(row,
           MapProdutoRows(RowsOf(backend.selectProdutos.data)), MapFaqRows(RowsOf(backend.selectFaqs.data)))
      && Get(r.value, "instancias") == Arr(MapInstanciaRows(RowsOf(backend.selectInstancias.data), stringify))
  {
    match ChildrenOf(backend, stringify)
    case Failure(e) => Failure(e)
    case Success(c) => Success(Context(user, usuario, EmpresaOfRow(row, c.produtos, c.faqs), c.instancias))
  }

  /** What fetchWorkspaceContext resolves to once the user is known. */
  function UserContextOf(user: Value, backend: Backend, stringify: Value -> string): Result<Value, ClientError> {
    if Truthy(backend.selectEmpresa.error) then
      Failure(Translate(backend.selectEmpresa.error, "INTERNAL_ERROR", "Erro ao carregar empresa."))
    else
      var row := FirstRow(backend.selectEmpresa.data);
      var usuario := UsuarioOrNull(user, backend);
      if !Truthy(row) then Success(Context(user, usuario, Null, []))
      else CompanyContextOf(user, usuario, row, backend, stringify)
  }

  /** What fetchWorkspaceContext resolves to, or rejects with. */
  function ContextOf(backend: Backend, stringify: Value -> string): (r: Result<Value, ClientError>)
    ensures AuthenticatedUser(backend.getUser).Failure? ==> r == Failure(AuthenticatedUser(backend.getUser).error)
    ensures AuthenticatedUser(backend.getUser).Success? && Truthy(backend.selectEmpresa.error) ==>
      r == Failure(Translate(backend.selectEmpresa.error, "INTERNAL_ERROR", "Erro ao carregar empresa."))
    ensures AuthenticatedUser(backend.getUser).Success? && !Truthy(backend.selectEmpresa.error)
            && Truthy(FirstRow(backend.selectEmpresa.data)) && ChildReadError(backend).Some? ==>
      r == Failure(ChildReadError(backend).value)
    ensures r.Failure? ==>
      AuthenticatedUser(backend.getUser).Failure? || Truthy(backend.selectEmpresa.error) || ChildReadError(backend).Some?
    ensures r.Success? ==>
      && Get(r.value, "usuario") == UsuarioOrNull(AuthenticatedUser(backend.getUser).value, backend)
      && Get(Get(r.value, "user"), "id") == Get(AuthenticatedUser(backend.getUser).value, "id")
    ensures AuthenticatedUser(backend.getUser).Success? && !Truthy(backend.selectEmpresa.error)
            && !Truthy(FirstRow(backend.selectEmpresa.data)) ==>
      r.Success? && Get(r.value, "empresa") == Null && Get(r.value, "instancias") == Arr([])
    ensures AuthenticatedUser(backend.getUser).Success? && !Truthy(backend.selectEmpresa.error)
            && Truthy(FirstRow(backend.selectEmpresa.data)) && ChildReadError(backend).None? ==>
      && r.Success?
      && Get(r.value, "empresa") == EmpresaOfRow(FirstRow(backend.selectEmpresa.data),
           MapProdutoRows(RowsOf(backend.selectProdutos.data)), MapFaqRows(RowsOf(backend.selectFaqs.data)))
      && Get(r.value, "instancias") == Arr(MapInstanciaRows(RowsOf(backend.selectInstancias.data), stringify))
  {
    var auth := AuthenticatedUser(backend.getUser);
    if auth.Failure? then Failure(auth.error) else UserContextOf(auth.value, backend, stringify)
  }

  /**
   * `fetchWorkspaceContext`: the user is required; a failure to ensure the
   * user record is tolerated (the record reads null); the company and, only
   * when there is one, its products, FAQs and instances are read, each
   * error translated. Nothing but the user record is written.
   */
  method FetchWorkspaceContext(backend: Backend, stringify: Value -> string)
    returns (r: Result<Value, ClientError>, calls: seq<Call>)
    ensures |calls| >= 1 && calls[0] == GetUser
    ensures forall c :: c in calls ==> !WritesWorkspace(c)
    ensures AuthenticatedUser(backend.getUser).Failure? ==>
      r == Failure(AuthenticatedUser(backend.getUser).error) && calls == [GetUser]
    ensures r.Failure? ==>
      AuthenticatedUser(backend.getUser).Failure? || Truthy(backend.selectEmpresa.error)
      || Truthy(backend.selectProdutos.error) || Truthy(backend.selectFaqs.error) || Truthy(backend.selectInstancias.error)
    ensures AuthenticatedUser(backend.getUser).Success? && !Truthy(backend.selectEmpresa.error)
            && !Truthy(FirstRow(backend.selectEmpresa.data)) ==>
      && r.Success? && Get(r.value, "empresa") == Null && Get(r.value, "instancias") == Arr([])
      && forall c :: c in calls ==> !TouchesChildren(c)
    ensures AuthenticatedUser(backend.getUser).Success? && !Truthy(backend.selectEmpresa.error)
            && Truthy(FirstRow(backend.selectEmpresa.data))
            && !Truthy(backend.selectProdutos.error) && !Truthy(backend.selectFaqs.error)
            && !Truthy(backend.selectInstancias.error) ==>
      && r.Success?
      && Get(r.value, "empresa") == EmpresaOfRow(FirstRow(backend.selectEmpresa.data),
           MapProdutoRows(RowsOf(backend.selectProdutos.data)), MapFaqRows(RowsOf(backend.selectFaqs.data)))
      && Get(r.value, "instancias") == Arr(MapInstanciaRows(RowsOf(backend.selectInstancias.data), stringify))
    ensures r == ContextOf(backend, stringify)
  {
    calls := [GetUser];
    var auth := AuthenticatedUser(backend.getUser);
    if auth.Failure? {
      return Failure(auth.error), calls;
    }
    var userCalls;
    r, userCalls := FetchAsUser(auth.value, backend, stringify);
    calls := calls + userCalls;
  }

  /** The reads of fetchWorkspaceContext once the user is known. */
  method FetchAsUser(user: Value, backend: Backend, stringify: Value -> string)
    returns (r: Result<Value, ClientError>, calls: seq<Call>)
    ensures forall c :: c in calls ==> !WritesWorkspace(c)
    ensures !Truthy(backend.selectEmpresa.error) && !Truthy(FirstRow(backend.selectEmpresa.data)) ==>
      forall c :: c in calls ==> !TouchesChildren(c)
    ensures r == UserContextOf(user, backend, stringify)
  {
    var usuario, ensureCalls := LoadUsuario(user, backend);
    calls := ensureCalls + [SelectEmpresa];
    assert forall c :: c in calls ==> !WritesWorkspace(c) && !TouchesChildren(c);

    var empresas := backend.selectEmpresa;
    if Truthy(empresas.error) {
      return Failure(Translate(empresas.error, "INTERNAL_ERROR", "Erro ao carregar empresa.")), calls;
    }
    var empresaRow := FirstRow(empresas.data);
    if !Truthy(empresaRow) {
      return Success(Context(user, usuario, Null, [])), calls;
    }
    var childCalls;
    r, childCalls := LoadCompany(user, usuario, empresaRow, backend, stringify);
    calls := calls + childCalls;
  }

  /** The user's record is ensured; a failure to ensure it leaves the record null. */
  method LoadUsuario(user: Value, backend: Backend) returns (usuario: Value, calls: seq<Call>)
    ensures forall c :: c in calls ==> !TouchesEmpresa(c)
    ensures usuario == UsuarioOrNull(user, backend)
  {
    var ensured;
    ensured, calls := EnsureUsuarioRecord(user, EmptyObj, backend);
    usuario := if ensured.Success? then ensured.value else Null;
  }

  /** The company row was found: its children are read and the context built, or the first read's error returned. */
  method LoadCompany(user: Value, usuario: Value, row: Value, backend: Backend, stringify: Value -> string)
    returns (r: Result<Value, ClientError>, calls: seq<Call>)
    ensures forall c :: c in calls ==> c.SelectProdutos? || c.SelectFaqs? || c.SelectInstancias?
    ensures r == CompanyContextOf(user, usuario, row, backend, stringify)
  {
    var children;
    children, calls := ReadChildren(backend, stringify);
    if children.Failure? {
      return Failure(children.error), calls;
    }
    var c := children.value;
    r := Success(Context(user, usuario, EmpresaOfRow(row, c.produtos, c.faqs), c.instancias));
  }

  // ---------------------------------------------------------------------------
  // saveWorkspaceContext

  const InvalidInput: ClientError := ClientError(Str("INVALID_INPUT"), Str("Informe o nome da empresa."))
  const UnresolvedEmpresa: ClientError := ClientError(Str("INTERNAL_ERROR"), Str("Não foi possível determinar a empresa."))

  /** The company texts a save sanitises. */
  const EmpresaTexts: set<string> :=
    {"nome", "tipo", "horario_funcionamento", "contatos_extras", "endereco", "observacoes"}

  /** The company fields a save writes: sanitised texts and the persona defaulting to josi. */
  function EmpresaData(empresa: Value): (r: Value)
    ensures r.Obj? && r.fields.Keys == EmpresaTexts + {"persona"}
    ensures forall k :: k in EmpresaTexts ==> Get(r, k) == SanitizeString(Get(empresa, k))
    ensures Get(r, "persona") == Or(Get(empresa, "persona"), Str("josi")) && Truthy(Get(r, "persona"))
  {
    Obj((map k | k in EmpresaTexts :: SanitizeString(Get(empresa, k)))["persona" := Or(Get(empresa, "persona"), Str("josi"))])
  }

  /**
   * The price of an inserted product: null when absent, otherwise the
   * number read from the normalised text; `parseNumber` stands for
   * `Number.parseFloat` followed by the finiteness check.
   */
  function PrecoValue(v: Value, parseNumber: string -> Value): (r: Value)
    ensures Nullish(v) ==> r == Null
  {
    match NormalizePreco(v)
    case None => Null
    case Some(text) => parseNumber(text)
  }

  /** `sanitizeString(item?.descricao) || null`: a submitted description, null when empty. */
  function ProdutoDescricao(item: Value): (d: Value)
    ensures d == Null || Truthy(d)
  {
    Or(SanitizeString(Get(item, "descricao")), Null)
  }

  /** The row inserted for one submitted product. */
  function ProdutoInsertRow(empresaId: Value, item: Value, parseNumber: string -> Value): (r: Value)
    ensures Get(r, "empresa_id") == empresaId && Get(r, "nome") == SanitizeString(Get(item, "nome"))
    ensures Get(r, "descricao") == Or(SanitizeString(Get(item, "descricao")), Null)
    ensures Get(r, "descricao") == Null || Truthy(Get(r, "descricao"))
  {
    var fields := map[
      "empresa_id" := empresaId,
      "nome" := SanitizeString(Get(item, "nome")),
      "descricao" := ProdutoDescricao(item),
      "preco" := PrecoValue(Get(item, "preco"), parseNumber)];
    Obj(fields)
  }

  /** An inserted product row holds exactly the company id, the name, the description and the price. */
  lemma ProdutoInsertRowKeys(empresaId: Value, item: Value, parseNumber: string -> Value)
    ensures var r := ProdutoInsertRow(empresaId, item, parseNumber);
      r.Obj? && r.fields.Keys == {"empresa_id", "nome", "descricao", "preco"}
  {
  }

  /** The inserted price is the parsed submitted price, and null when none was submitted. */
  lemma ProdutoInsertRowPreco(empresaId: Value, item: Value, parseNumber: string -> Value)
    ensures Get(ProdutoInsertRow(empresaId, item, parseNumber), "preco") == PrecoValue(Get(item, "preco"), parseNumber)
    ensures Nullish(Get(item, "preco")) ==> Get(ProdutoInsertRow(empresaId, item, parseNumber), "preco") == Null
  {
  }

  /** `.map(...).filter((item) => item.nome)`. */
  function ProdutoInserts(empresaId: Value, items: seq<Value>, parseNumber: string -> Value): (r: seq<Value>)
    ensures |r| <= |items|
    ensures forall x :: x in r ==> Truthy(Get(x, "nome")) && (Get(x, "descricao") == Null || Truthy(Get(x, "descricao")))
  {
    if items == [] then []
    else
      var row := ProdutoInsertRow(empresaId, items[0], parseNumber);
      var rest := ProdutoInserts(empresaId, items[1..], parseNumber);
      if Truthy(Get(row, "nome")) then [row] + rest else rest
  }

  /** The filter keeps the row of every submitted product whose sanitised name is non-empty. */
  lemma {:induction false} ProdutoInsertsKeep(empresaId: Value, items: seq<Value>, parseNumber: string -> Value)
    ensures forall i :: 0 <= i < |items| && Truthy(SanitizeString(Get(items[i], "nome"))) ==>
      ProdutoInsertRow(empresaId, items[i], parseNumber) in ProdutoInserts(empresaId, items, parseNumber)
  {
    if items != [] {
      var r := ProdutoInserts(empresaId, items, parseNumber);
      var rest := ProdutoInserts(empresaId, items[1..], parseNumber);
      ProdutoInsertsKeep(empresaId, items[1..], parseNumber);
      assert forall x :: x in rest ==> x in r;
      forall i | 0 <= i < |items| && Truthy(SanitizeString(Get(items[i], "nome")))
        ensures ProdutoInsertRow(empresaId, items[i], parseNumber) in r
      {
        if i > 0 {
          assert items[i] == items[1..][i - 1];
        }
      }
    }
  }

  /** The filter keeps nothing but rows of submitted products. */
  lemma {:induction false} ProdutoInsertsOnly(empresaId: Value, items: seq<Value>, parseNumber: string -> Value)
    ensures forall x :: x in ProdutoInserts(empresaId, items, parseNumber) ==>
      exists i :: 0 <= i < |items| && x == ProdutoInsertRow(empresaId, items[i], parseNumber)
  {
    if items != [] {
      var r := ProdutoInserts(empresaId, items, parseNumber);
      var rest := ProdutoInserts(empresaId, items[1..], parseNumber);
      ProdutoInsertsOnly(empresaId, items[1..], parseNumber);
      assert r == rest || r == [ProdutoInsertRow(empresaId, items[0], parseNumber)] + rest;
      forall x | x in r ensures exists i :: 0 <= i < |items| && x == ProdutoInsertRow(empresaId, items[i], parseNumber) {
        if x in rest {
          var j :| 0 <= j < |items[1..]| && x == ProdutoInsertRow(empresaId, items[1..][j], parseNumber);
          assert items[1..][j] == items[j + 1];
        } else {
          assert x == ProdutoInsertRow(empresaId, items[0], parseNumber);
        }
      }
    }
  }

  /** Filtering keeps input order: the inserts of a concatenation are the concatenation of the inserts. */
  lemma {:induction false} ProdutoInsertsAppend(empresaId: Value, a: seq<Value>, b: seq<Value>, parseNumber: string -> Value)
    ensures ProdutoInserts(empresaId, a + b, parseNumber)
         == ProdutoInserts(empresaId, a, parseNumber) + ProdutoInserts(empresaId, b, parseNumber)
    decreases |a|
  {
    if a == [] {
      assert a + b == b;
    } else {
      assert (a + b)[1..] == a[1..] + b;
      ProdutoInsertsAppend(empresaId, a[1..], b, parseNumber);
    }
  }

  const FaqTexts: set<string> := {"pergunta", "resposta"}

  /** The row inserted for one submitted FAQ. */
  function FaqInsertRow(empresaId: Value, item: Value): (r: Value)
    ensures Get(r, "empresa_id") == empresaId
    ensures Get(r, "pergunta") == SanitizeString(Get(item, "pergunta"))
    ensures Get(r, "resposta") == SanitizeString(Get(item, "resposta"))
    ensures r.Obj? && r.fields.Keys == {"empresa_id", "pergunta", "resposta"}
  {
    Obj((map k | k in FaqTexts :: SanitizeString(Get(item, k)))["empresa_id" := empresaId])
  }

  /** `.map(...).filter((item) => item.pergunta && item.resposta)`. */
  function FaqInserts(empresaId: Value, items: seq<Value>): (r: seq<Value>)
    ensures |r| <= |items|
    ensures forall x :: x in r ==> Truthy(Get(x, "pergunta")) && Truthy(Get(x, "resposta"))
  {
    if items == [] then []
    else
      var row := FaqInsertRow(empresaId, items[0]);
      var rest := FaqInserts(empresaId, items[1..]);
      if Truthy(Get(row, "pergunta")) && Truthy(Get(row, "resposta")) then [row] + rest else rest
  }

  /** The filter keeps exactly the rows of the submitted FAQs with both a question and an answer. */
  lemma {:induction false} FaqInsertsKeep(empresaId: Value, items: seq<Value>)
    ensures forall i :: 0 <= i < |items| && Truthy(SanitizeString(Get(items[i], "pergunta")))
                        && Truthy(SanitizeString(Get(items[i], "resposta"))) ==>
      FaqInsertRow(empresaId, items[i]) in FaqInserts(empresaId, items)
    ensures forall x :: x in FaqInserts(empresaId, items) ==>
      exists i :: 0 <= i < |items| && x == FaqInsertRow(empresaId, items[i])
  {
    if items != [] {
      var r := FaqInserts(empresaId, items);
      var rest := FaqInserts(empresaId, items[1..]);
      FaqInsertsKeep(empresaId, items[1..]);
      assert r == rest || r == [FaqInsertRow(empresaId, items[0])] + rest;
      forall i | 0 <= i < |items| && Truthy(SanitizeString(Get(items[i], "pergunta")))
                 && Truthy(SanitizeString(Get(items[i], "resposta")))
        ensures FaqInsertRow(empresaId, items[i]) in r
      {
        if i > 0 {
          assert items[i] == items[1..][i - 1];
        }
      }
      forall x | x in r ensures exists i :: 0 <= i < |items| && x == FaqInsertRow(empresaId, items[i]) {
        if x in rest {
          var j :| 0 <= j < |items[1..]| && x == FaqInsertRow(empresaId, items[1..][j]);
          assert items[1..][j] == items[j + 1];
        } else {
          assert x == FaqInsertRow(empresaId, items[0]);
        }
      }
    }
  }

  lemma {:induction false} FaqInsertsAppend(empresaId: Value, a: seq<Value>, b: seq<Value>)
    ensures FaqInserts(empresaId, a + b) == FaqInserts(empresaId, a) + FaqInserts(empresaId, b)
    decreases |a|
  {
    if a == [] {
      assert a + b == b;
    } else {
      assert (a + b)[1..] == a[1..] + b;
      FaqInsertsAppend(empresaId, a[1..], b);
    }
  }

  /** The row inserted for a new company: the company fields and the owner's id. */
  function NewEmpresa(data: Value, user: Value): (r: Value)
    ensures Get(r, "user_id") == Get(user, "id")
    ensures forall k :: k != "user_id" ==> Get(r, k) == Get(data, k)
  {
    Obj(Spread(data)["user_id" := Get(user, "id")])
  }

  /** The calls of a company write: the lookup, then at most one update of or insert with `data`. */
  predicate EmpresaCalls(calls: seq<Call>, data: Value, user: Value) {
    calls == [LookupEmpresa] || calls == [LookupEmpresa, UpdateEmpresa(data)]
    || calls == [LookupEmpresa, InsertEmpresa(NewEmpresa(data, user))]
  }

  /** `existente?.[0]?.id || null`: the id of the company the lookup found. */
  function LookupId(backend: Backend): Value {
    Or(Get(At(backend.lookupEmpresa.data, 0), "id"), Null)
  }

  /** The calls of a company write: the lookup, then the update when it found one, or the insert. */
  function EmpresaCallsOf(backend: Backend, user: Value, data: Value): (calls: seq<Call>)
    ensures EmpresaCalls(calls, data, user)
  {
    [LookupEmpresa] + (
      if Truthy(backend.lookupEmpresa.error) then []
      else if Truthy(LookupId(backend)) then [UpdateEmpresa(data)]
      else [InsertEmpresa(NewEmpresa(data, user))])
  }

  /** What a company write resolves to: the id of the company written, or the error. */
  function EmpresaWriteOf(backend: Backend, user: Value, data: Value): (r: Result<Value, ClientError>)
    ensures r.Success? ==> Truthy(r.value)
  {
    if Truthy(backend.lookupEmpresa.error) then
      Failure(Translate(backend.lookupEmpresa.error, "INTERNAL_ERROR", "Erro ao consultar empresa."))
    else if Truthy(LookupId(backend)) then
      if Truthy(backend.updateEmpresa.error) then
        Failure(Translate(backend.updateEmpresa.error, "INTERNAL_ERROR", "Erro ao atualizar empresa."))
      else Success(LookupId(backend))
    else if Truthy(backend.insertEmpresa.error) then
      Failure(Translate(backend.insertEmpresa.error, "INTERNAL_ERROR", "Erro ao criar empresa."))
    else if Truthy(Get(backend.insertEmpresa.data, "id")) then Success(Get(backend.insertEmpresa.data, "id"))
    else Failure(UnresolvedEmpresa)
  }

  /** The company lookup, then its update or the insert of a new one; the id of the company written. */
  method WriteEmpresa(backend: Backend, user: Value, data: Value)
    returns (r: Result<Value, ClientError>, calls: seq<Call>)
    ensures |calls| >= 1 && calls[0] == LookupEmpresa
    ensures EmpresaCalls(calls, data, user)
    ensures r.Success? ==> Truthy(r.value)
    ensures Truthy(backend.lookupEmpresa.error) ==>
      r == Failure(Translate(backend.lookupEmpresa.error, "INTERNAL_ERROR", "Erro ao consultar empresa."))
    ensures !Truthy(backend.lookupEmpresa.error) && Truthy(Get(At(backend.lookupEmpresa.data, 0), "id")) ==>
      calls == [LookupEmpresa, UpdateEmpresa(data)]
      && (r.Success? <==> !Truthy(backend.updateEmpresa.error))
      && (r.Success? ==> r.value == Get(At(backend.lookupEmpresa.data, 0), "id"))
    ensures !Truthy(backend.lookupEmpresa.error) && Truthy(Get(At(backend.lookupEmpresa.data, 0), "id"))
            && Truthy(backend.updateEmpresa.error) ==>
      r == Failure(Translate(backend.updateEmpresa.error, "INTERNAL_ERROR", "Erro ao atualizar empresa."))
    ensures !Truthy(backend.lookupEmpresa.error) && !Truthy(Get(At(backend.lookupEmpresa.data, 0), "id")) ==>
      && calls == [LookupEmpresa, InsertEmpresa(NewEmpresa(data, user))]
      && (Truthy(backend.insertEmpresa.error) ==>
            r == Failure(Translate(backend.insertEmpresa.error, "INTERNAL_ERROR", "Erro ao criar empresa.")))
      && (!Truthy(backend.insertEmpresa.error) && Truthy(Get(backend.insertEmpresa.data, "id")) ==>
            r == Success(Get(backend.insertEmpresa.data, "id")))
    ensures !Truthy(backend.lookupEmpresa.error) && !Truthy(Get(At(backend.lookupEmpresa.data, 0), "id"))
            && !Truthy(backend.insertEmpresa.error) && !Truthy(Get(backend.insertEmpresa.data, "id")) ==>
      r == Failure(UnresolvedEmpresa)
    ensures r == EmpresaWriteOf(backend, user, data) && calls == EmpresaCallsOf(backend, user, data)
  {
    calls := [LookupEmpresa];
    if Truthy(backend.lookupEmpresa.error) {
      return Failure(Translate(backend.lookupEmpresa.error, "INTERNAL_ERROR", "Erro ao consultar empresa.")), calls;
    }
    var empresaId := Or(Get(At(backend.lookupEmpresa.data, 0), "id"), Null);
    if Truthy(empresaId) {
      calls := calls + [UpdateEmpresa(data)];
      if Truthy(backend.updateEmpresa.error) {
        return Failure(Translate(backend.updateEmpresa.error, "INTERNAL_ERROR", "Erro ao atualizar empresa.")), calls;
      }
    } else {
      calls := calls + [InsertEmpresa(NewEmpresa(data, user))];
      if Truthy(backend.insertEmpresa.error) {
        return Failure(Translate(backend.insertEmpresa.error, "INTERNAL_ERROR", "Erro ao criar empresa.")), calls;
      }
      empresaId := Or(Get(backend.insertEmpresa.data, "id"), Null);
    }
    if !Truthy(empresaId) {
      return Failure(UnresolvedEmpresa), calls;
    }
    r := Success(empresaId);
  }

  /** The submitted list under `key`, when it is an array. */
  function ListOf(payload: Value, key: string): seq<Value> {
    RowsOf(Get(payload, key))
  }

  /** Every inserted product has a name, every inserted FAQ a question and an answer. */
  ghost predicate InsertsAreValid(calls: seq<Call>) {
    forall c :: c in calls ==>
      (c.InsertProdutos? ==> forall x :: x in c.rows ==> Truthy(Get(x, "nome")))
      && (c.InsertFaqs? ==> forall x :: x in c.rows ==> Truthy(Get(x, "pergunta")) && Truthy(Get(x, "resposta")))
  }

  /** The calls of a product replacement: the delete, then the insert of the kept rows unless it failed or none is kept. */
  function ProdutoCallsOf(backend: Backend, empresaId: Value, items: seq<Value>, parseNumber: string -> Value): seq<Call> {
    if Truthy(backend.deleteProdutos.error) || ProdutoInserts(empresaId, items, parseNumber) == []
    then [DeleteProdutos]
    else [DeleteProdutos, InsertProdutos(ProdutoInserts(empresaId, items, parseNumber))]
  }

  /** The error of a product replacement: the delete's, else the insert's when one is made. */
  function ProdutosErrorOf(backend: Backend, empresaId: Value, items: seq<Value>, parseNumber: string -> Value)
    : Option<ClientError>
  {
    if Truthy(backend.deleteProdutos.error) then
      Some(Translate(backend.deleteProdutos.error, "INTERNAL_ERROR", "Erro ao atualizar produtos."))
    else if ProdutoInserts(empresaId, items, parseNumber) != [] && Truthy(backend.insertProdutos.error) then
      Some(Translate(backend.insertProdutos.error, "INTERNAL_ERROR", "Erro ao salvar produtos."))
    else None
  }

  /** Delete a company's products, then insert the kept ones, if any. */
  method ReplaceProdutos(backend: Backend, empresaId: Value, items: seq<Value>, parseNumber: string -> Value)
    returns (err: Option<ClientError>, calls: seq<Call>)
    ensures calls == ProdutoCallsOf(backend, empresaId, items, parseNumber)
    ensures InsertsAreValid(calls)
    ensures Truthy(backend.deleteProdutos.error) ==>
      err == Some(Translate(backend.deleteProdutos.error, "INTERNAL_ERROR", "Erro ao atualizar produtos.")) && calls == [DeleteProdutos]
    ensures err.None? <==> (!Truthy(backend.deleteProdutos.error)
      && (ProdutoInserts(empresaId, items, parseNumber) == [] || !Truthy(backend.insertProdutos.error)))
    ensures !Truthy(backend.deleteProdutos.error) && ProdutoInserts(empresaId, items, parseNumber) != []
            && Truthy(backend.insertProdutos.error) ==>
      err == Some(Translate(backend.insertProdutos.error, "INTERNAL_ERROR", "Erro ao salvar produtos."))
    ensures err == ProdutosErrorOf(backend, empresaId, items, parseNumber)
  {
    calls := [DeleteProdutos];
    if Truthy(backend.deleteProdutos.error) {
      return Some(Translate(backend.deleteProdutos.error, "INTERNAL_ERROR", "Erro ao atualizar produtos.")), calls;
    }
    err := None;
    var rows := ProdutoInserts(empresaId, items, parseNumber);
    if |items| > 0 && |rows| > 0 {
      calls := calls + [InsertProdutos(rows)];
      if Truthy(backend.insertProdutos.error) {
        err := Some(Translate(backend.insertProdutos.error, "INTERNAL_ERROR", "Erro ao salvar produtos."));
      }
    } else {
      assert rows == [];
    }
  }

  /** The calls of a FAQ replacement: the delete, then the insert of the kept rows unless it failed or none is kept. */
  function FaqCallsOf(backend: Backend, empresaId: Value, items: seq<Value>): seq<Call> {
    if Truthy(backend.deleteFaqs.error) || FaqInserts(empresaId, items) == []
    then [DeleteFaqs]
    else [DeleteFaqs, InsertFaqs(FaqInserts(empresaId, items))]
  }

  /** The error of a FAQ replacement: the delete's, else the insert's when one is made. */
  function FaqsErrorOf(backend: Backend, empresaId: Value, items: seq<Value>): Option<ClientError> {
    if Truthy(backend.deleteFaqs.error) then
      Some(Translate(backend.deleteFaqs.error, "INTERNAL_ERROR", "Erro ao atualizar FAQs."))
    else if FaqInserts(empresaId, items) != [] && Truthy(backend.insertFaqs.error) then
      Some(Translate(backend.insertFaqs.error, "INTERNAL_ERROR", "Erro ao salvar FAQs."))
    else None
  }

  /** Delete a company's FAQs, then insert the kept ones, if any. */
  method ReplaceFaqs(backend: Backend, empresaId: Value, items: seq<Value>)
    returns (err: Option<ClientError>, calls: seq<Call>)
    ensures calls == FaqCallsOf(backend, empresaId, items)
    ensures InsertsAreValid(calls)
    ensures Truthy(backend.deleteFaqs.error) ==>
      err == Some(Translate(backend.deleteFaqs.error, "INTERNAL_ERROR", "Erro ao atualizar FAQs.")) && calls == [DeleteFaqs]
    ensures err.None? <==> (!Truthy(backend.deleteFaqs.error)
      && (FaqInserts(empresaId, items) == [] || !Truthy(backend.insertFaqs.error)))
    ensures !Truthy(backend.deleteFaqs.error) && FaqInserts(empresaId, items) != [] && Truthy(backend.insertFaqs.error) ==>
      err == Some(Translate(backend.insertFaqs.error, "INTERNAL_ERROR", "Erro ao salvar FAQs."))
    ensures err == FaqsErrorOf(backend, empresaId, items)
  {
    calls := [DeleteFaqs];
    if Truthy(backend.deleteFaqs.error) {
      return Some(Translate(backend.deleteFaqs.error, "INTERNAL_ERROR", "Erro ao atualizar FAQs.")), calls;
    }
    err := None;
    if |items| > 0 {
      var rows := FaqInserts(empresaId, items);
      if |rows| > 0 {
        calls := calls + [InsertFaqs(rows)];
        if Truthy(backend.insertFaqs.error) {
          err := Some(Translate(backend.insertFaqs.error, "INTERNAL_ERROR", "Erro ao salvar FAQs."));
        }
      }
    }
  }

  /** The error of replacing a company's children: the products', else the FAQs'. */
  function ChildWriteErrorOf(backend: Backend, empresaId: Value, payload: Value, parseNumber: string -> Value)
    : Option<ClientError>
  {
    var p := ProdutosErrorOf(backend, empresaId, ListOf(payload, "produtos"), parseNumber);
    if p.Some? then p else FaqsErrorOf(backend, empresaId, ListOf(payload, "faqs"))
  }

  /** The calls of replacing a company's children: the products', then, unless they failed, the FAQs'. */
  function ChildWriteCallsOf(backend: Backend, empresaId: Value, payload: Value, parseNumber: string -> Value): seq<Call> {
    ProdutoCallsOf(backend, empresaId, ListOf(payload, "produtos"), parseNumber)
    + if ProdutosErrorOf(backend, empresaId, ListOf(payload, "produtos"), parseNumber).Some? then []
      else FaqCallsOf(backend, empresaId, ListOf(payload, "faqs"))
  }

  /** Every child insert among `calls` holds exactly the rows kept from the submitted lists, for company `empresaId`. */
  ghost predicate InsertsFrom(calls: seq<Call>, empresaId: Value, payload: Value, parseNumber: string -> Value) {
    forall c :: c in calls ==>
      (c.InsertProdutos? ==> c.rows == ProdutoInserts(empresaId, ListOf(payload, "produtos"), parseNumber))
      && (c.InsertFaqs? ==> c.rows == FaqInserts(empresaId, ListOf(payload, "faqs")))
  }

  /** The calls of a child replacement only delete and insert children, and insert exactly the kept submitted rows. */
  lemma ChildWriteCallsShape(backend: Backend, empresaId: Value, payload: Value, parseNumber: string -> Value)
    ensures var calls := ChildWriteCallsOf(backend, empresaId, payload, parseNumber);
      && |calls| >= 1 && calls[0] == DeleteProdutos
      && (forall c :: c in calls ==> c.DeleteProdutos? || c.InsertProdutos? || c.DeleteFaqs? || c.InsertFaqs?)
      && InsertsFrom(calls, empresaId, payload, parseNumber)
      && InsertsAreValid(calls)
  {
    var items := ListOf(payload, "produtos");
    var faqs := ListOf(payload, "faqs");
    var p := ProdutoCallsOf(backend, empresaId, items, parseNumber);
    var f := if ProdutosErrorOf(backend, empresaId, items, parseNumber).Some? then [] else FaqCallsOf(backend, empresaId, faqs);
    assert ChildWriteCallsOf(backend, empresaId, payload, parseNumber) == p + f;
    ProdutoCallsShape(backend, empresaId, items, parseNumber);
    FaqCallsShape(backend, empresaId, faqs);
    forall c: Call | c in p + f
      ensures c.DeleteProdutos? || c.InsertProdutos? || c.DeleteFaqs? || c.InsertFaqs?
      ensures c.InsertProdutos? ==> c.rows == ProdutoInserts(empresaId, items, parseNumber)
      ensures c.InsertFaqs? ==> c.rows == FaqInserts(empresaId, faqs)
    {
      assert c in p || c in FaqCallsOf(backend, empresaId, faqs);
    }
  }

  /** A product replacement deletes first and inserts nothing but the kept rows. */
  lemma ProdutoCallsShape(backend: Backend, empresaId: Value, items: seq<Value>, parseNumber: string -> Value)
    ensures var p := ProdutoCallsOf(backend, empresaId, items, parseNumber);
      && |p| >= 1 && p[0] == DeleteProdutos
      && forall c :: c in p ==> c.DeleteProdutos? || (c.InsertProdutos? && c.rows == ProdutoInserts(empresaId, items, parseNumber))
  {
  }

  /** A FAQ replacement deletes first and inserts nothing but the kept rows. */
  lemma FaqCallsShape(backend: Backend, empresaId: Value, items: seq<Value>)
    ensures var f := FaqCallsOf(backend, empresaId, items);
      && |f| >= 1 && f[0] == DeleteFaqs
      && forall c :: c in f ==> c.DeleteFaqs? || (c.InsertFaqs? && c.rows == FaqInserts(empresaId, items))
  {
  }

  /** The products of a company are replaced, then, unless that failed, its FAQs. */
  method ReplaceChildren(backend: Backend, empresaId: Value, payload: Value, parseNumber: string -> Value)
    returns (err: Option<ClientError>, calls: seq<Call>)
    ensures forall c :: c in calls ==> c.DeleteProdutos? || c.InsertProdutos? || c.DeleteFaqs? || c.InsertFaqs?
    ensures InsertsAreValid(calls)
    ensures |calls| >= 1 && calls[0] == DeleteProdutos
    ensures Truthy(backend.deleteProdutos.error) ==> DeleteFaqs !in calls
    ensures calls == ChildWriteCallsOf(backend, empresaId, payload, parseNumber)
    ensures err == ChildWriteErrorOf(backend, empresaId, payload, parseNumber)
    ensures InsertsFrom(calls, empresaId, payload, parseNumber)
  {
    var produtoCalls, faqCalls;
    err, produtoCalls := ReplaceProdutos(backend, empresaId, ListOf(payload, "produtos"), parseNumber);
    calls := produtoCalls;
    if err.Some? {
      ChildWriteCallsShape(backend, empresaId, payload, parseNumber);
      return;
    }
    err, faqCalls := ReplaceFaqs(backend, empresaId, ListOf(payload, "faqs"));
    calls := calls + faqCalls;
    ChildWriteCallsShape(backend, empresaId, payload, parseNumber);
  }

  /** Every company update or insert writes a non-empty name and the persona, defaulting to josi. */
  ghost predicate CompanyWritesOf(calls: seq<Call>, empresa: Value) {
    forall c :: c in calls && (c.UpdateEmpresa? || c.InsertEmpresa?) ==>
      Truthy(Get(c.fields, "nome")) && Get(c.fields, "persona") == Or(Get(empresa, "persona"), Str("josi"))
  }

  /** A company write with the save's company fields keeps the call-list invariants. */
  lemma EmpresaDataWrites(calls: seq<Call>, empresa: Value, user: Value)
    requires EmpresaCalls(calls, EmpresaData(empresa), user)
    requires Truthy(SanitizeString(Get(empresa, "nome")))
    ensures InsertsAreValid(calls) && CompanyWritesOf(calls, empresa)
    ensures forall c :: c in calls ==> c.LookupEmpresa? || WritesWorkspace(c)
  {
    var data := EmpresaData(empresa);
    assert Get(data, "nome") == SanitizeString(Get(empresa, "nome"));
    assert Get(NewEmpresa(data, user), "nome") == Get(data, "nome");
    assert Get(NewEmpresa(data, user), "persona") == Get(data, "persona");
  }

  /** Appending the calls of a child replacement keeps both call-list invariants. */
  lemma ChildCallsAppend(a: seq<Call>, b: seq<Call>, empresa: Value)
    requires InsertsAreValid(a) && InsertsAreValid(b) && CompanyWritesOf(a, empresa)
    requires forall c :: c in a ==> c.LookupEmpresa? || WritesWorkspace(c)
    requires forall c :: c in b ==> c.DeleteProdutos? || c.InsertProdutos? || c.DeleteFaqs? || c.InsertFaqs?
    ensures InsertsAreValid(a + b) && CompanyWritesOf(a + b, empresa)
    ensures forall c :: c in a + b ==> c.LookupEmpresa? || WritesWorkspace(c)
  {
  }

  /** What the writes of a save resolve to: the company write's id, or its error, or the first child write's error. */
  function WorkspaceWriteOf(backend: Backend, user: Value, empresa: Value, payload: Value, parseNumber: string -> Value)
    : (r: Result<Value, ClientError>)
    ensures r.Success? ==> Truthy(r.value)
    ensures EmpresaWriteOf(backend, user, EmpresaData(empresa)).Failure? ==> r == EmpresaWriteOf(backend, user, EmpresaData(empresa))
  {
    var written := EmpresaWriteOf(backend, user, EmpresaData(empresa));
    if written.Failure? then written
    else match ChildWriteErrorOf(backend, written.value, payload, parseNumber)
      case Some(e) => Failure(e)
      case None => written
  }

  /** The calls of the writes of a save: the company write's, then, unless it failed, the child replacement's. */
  function WorkspaceCallsOf(backend: Backend, user: Value, empresa: Value, payload: Value, parseNumber: string -> Value)
    : seq<Call>
  {
    var written := EmpresaWriteOf(backend, user, EmpresaData(empresa));
    EmpresaCallsOf(backend, user, EmpresaData(empresa))
    + if written.Failure? then [] else ChildWriteCallsOf(backend, written.value, payload, parseNumber)
  }

  /** The calls of a save's writes start with the lookup, only write the workspace, and stop after a failed company write. */
  lemma WorkspaceCallsShape(backend: Backend, user: Value, empresa: Value, payload: Value, parseNumber: string -> Value)
    ensures var calls := WorkspaceCallsOf(backend, user, empresa, payload, parseNumber);
      var company := EmpresaWriteOf(backend, user, EmpresaData(empresa));
      && |calls| >= 1 && calls[0] == LookupEmpresa
      && (forall c :: c in calls ==> c.LookupEmpresa? || WritesWorkspace(c))
      && (company.Failure? ==> calls == EmpresaCallsOf(backend, user, EmpresaData(empresa)))
  {
    var data := EmpresaData(empresa);
    var ec := EmpresaCallsOf(backend, user, data);
    var company := EmpresaWriteOf(backend, user, data);
    assert forall c :: c in ec ==> c.LookupEmpresa? || WritesWorkspace(c);
    if company.Success? {
      ChildWriteCallsShape(backend, company.value, payload, parseNumber);
    }
  }

  /** Every company write of a save carries the name and the persona, and every insert is valid. */
  lemma WorkspaceCallsValid(backend: Backend, user: Value, empresa: Value, payload: Value, parseNumber: string -> Value)
    requires Truthy(SanitizeString(Get(empresa, "nome")))
    ensures var calls := WorkspaceCallsOf(backend, user, empresa, payload, parseNumber);
      InsertsAreValid(calls) && CompanyWritesOf(calls, empresa)
  {
    var data := EmpresaData(empresa);
    var ec := EmpresaCallsOf(backend, user, data);
    EmpresaDataWrites(ec, empresa, user);
    var company := EmpresaWriteOf(backend, user, data);
    if company.Success? {
      var cc := ChildWriteCallsOf(backend, company.value, payload, parseNumber);
      ChildWriteCallsShape(backend, company.value, payload, parseNumber);
      ChildCallsAppend(ec, cc, empresa);
    }
  }

  /** Every insert of a save's writes holds exactly the kept submitted rows, for the company written. */
  lemma WorkspaceCallsInserts(backend: Backend, user: Value, empresa: Value, payload: Value, parseNumber: string -> Value)
    ensures var company := EmpresaWriteOf(backend, user, EmpresaData(empresa));
      company.Success? ==>
        InsertsFrom(WorkspaceCallsOf(backend, user, empresa, payload, parseNumber), company.value, payload, parseNumber)
  {
    var data := EmpresaData(empresa);
    var company := EmpresaWriteOf(backend, user, data);
    if company.Success? {
      var ec := EmpresaCallsOf(backend, user, data);
      ChildWriteCallsShape(backend, company.value, payload, parseNumber);
      assert InsertsFrom(ec, company.value, payload, parseNumber);
    }
  }

  /**
   * The writes of `saveWorkspaceContext` once the name is known to be
   * non-empty: the company is updated or created, then its products and
   * FAQs are replaced; the result is the id of the company written.
   */
  method WriteWorkspace(backend: Backend, user: Value, empresa: Value, payload: Value, parseNumber: string -> Value)
    returns (r: Result<Value, ClientError>, calls: seq<Call>)
    requires Truthy(SanitizeString(Get(empresa, "nome")))
    ensures |calls| >= 1 && calls[0] == LookupEmpresa
    ensures forall c :: c in calls ==> c.LookupEmpresa? || WritesWorkspace(c)
    ensures InsertsAreValid(calls)
    ensures CompanyWritesOf(calls, empresa)
    ensures r.Success? ==> Truthy(r.value)
    ensures r == WorkspaceWriteOf(backend, user, empresa, payload, parseNumber)
    ensures calls == WorkspaceCallsOf(backend, user, empresa, payload, parseNumber)
    ensures EmpresaWriteOf(backend, user, EmpresaData(empresa)).Failure? ==>
      r == EmpresaWriteOf(backend, user, EmpresaData(empresa)) && calls == EmpresaCallsOf(backend, user, EmpresaData(empresa))
    ensures EmpresaWriteOf(backend, user, EmpresaData(empresa)).Success? ==>
      InsertsFrom(calls, EmpresaWriteOf(backend, user, EmpresaData(empresa)).value, payload, parseNumber)
  {
    r, calls := WriteCompanyThenChildren(backend, user, empresa, payload, parseNumber);
    WorkspaceCallsShape(backend, user, empresa, payload, parseNumber);
    WorkspaceCallsValid(backend, user, empresa, payload, parseNumber);
    WorkspaceCallsInserts(backend, user, empresa, payload, parseNumber);
  }

  /** The company write, then, unless it failed, the replacement of its children. */
  method WriteCompanyThenChildren(backend: Backend, user: Value, empresa: Value, payload: Value, parseNumber: string -> Value)
    returns (r: Result<Value, ClientError>, calls: seq<Call>)
    ensures r == WorkspaceWriteOf(backend, user, empresa, payload, parseNumber)
    ensures calls == WorkspaceCallsOf(backend, user, empresa, payload, parseNumber)
  {
    r, calls := WriteEmpresa(backend, user, EmpresaData(empresa));
    if r.Failure? {
      return;
    }
    var childErr, childCalls := ReplaceChildren(backend, r.value, payload, parseNumber);
    calls := calls + childCalls;
    if childErr.Some? {
      r := Failure(childErr.value);
    }
  }

  /** The writes of a save, then, when they all succeed, the fresh fetch that is its result. */
  method WriteThenFetch(backend: Backend, user: Value, empresa: Value, payload: Value,
                        stringify: Value -> string, parseNumber: string -> Value)
    returns (r: Result<Value, ClientError>, calls: seq<Call>)
    requires Truthy(SanitizeString(Get(empresa, "nome")))
    ensures InsertsAreValid(calls) && CompanyWritesOf(calls, empresa)
    ensures var written := WorkspaceWriteOf(backend, user, empresa, payload, parseNumber);
      && (written.Failure? ==> r == Failure(written.error))
      && (written.Success? ==> r == ContextOf(backend, stringify))
    ensures var company := EmpresaWriteOf(backend, user, EmpresaData(empresa));
      company.Success? ==> InsertsFrom(calls, company.value, payload, parseNumber)
  {
    var written;
    written, calls := WriteWorkspace(backend, user, empresa, payload, parseNumber);
    if written.Failure? {
      return Failure(written.error), calls;
    }
    var fetchCalls;
    r, fetchCalls := FetchWorkspaceContext(backend, stringify);
    assert forall c :: c in fetchCalls ==> !c.InsertProdutos? && !c.InsertFaqs? && !c.UpdateEmpresa? && !c.InsertEmpresa?;
    calls := calls + fetchCalls;
  }

  /** Calls that never touch a company insert nothing and write no company. */
  lemma AccountCallsOnly(calls: seq<Call>, empresa: Value, empresaId: Value, payload: Value, parseNumber: string -> Value)
    requires forall c :: c in calls ==> !TouchesEmpresa(c)
    ensures InsertsAreValid(calls) && CompanyWritesOf(calls, empresa)
    ensures InsertsFrom(calls, empresaId, payload, parseNumber)
  {
  }

  /** Account calls in front of a save's calls keep its call-list invariants. */
  lemma AccountCallsPrefix(pre: seq<Call>, calls: seq<Call>, empresa: Value, empresaId: Value, payload: Value,
                           parseNumber: string -> Value)
    requires forall c :: c in pre ==> !TouchesEmpresa(c)
    ensures InsertsAreValid(calls) ==> InsertsAreValid(pre + calls)
    ensures CompanyWritesOf(calls, empresa) ==> CompanyWritesOf(pre + calls, empresa)
    ensures InsertsFrom(calls, empresaId, payload, parseNumber) ==> InsertsFrom(pre + calls, empresaId, payload, parseNumber)
    ensures (forall c :: c in calls ==> !TouchesEmpresa(c)) ==> forall c :: c in pre + calls ==> !TouchesEmpresa(c)
  {
  }

  /** A save once the user is known: its record is ensured, the name checked, the workspace written and fetched. */
  method SaveAsUser(user: Value, payload: Value, backend: Backend, stringify: Value -> string, parseNumber: string -> Value)
    returns (r: Result<Value, ClientError>, calls: seq<Call>)
    ensures InsertsAreValid(calls) && CompanyWritesOf(calls, Get(payload, "empresa"))
    ensures var ensured := UsuarioRecordOf(user, EmptyObj, backend);
      var empresa := Get(payload, "empresa");
      var written := WorkspaceWriteOf(backend, user, empresa, payload, parseNumber);
      && (ensured.Failure? ==> r == Failure(ensured.error) && forall c :: c in calls ==> !TouchesEmpresa(c))
      && (ensured.Success? && !Truthy(SanitizeString(Get(empresa, "nome"))) ==>
            r == Failure(InvalidInput) && forall c :: c in calls ==> !TouchesEmpresa(c))
      && (ensured.Success? && Truthy(SanitizeString(Get(empresa, "nome"))) ==>
            && (written.Failure? ==> r == Failure(written.error))
            && (written.Success? ==> r == ContextOf(backend, stringify)))
    ensures var company := EmpresaWriteOf(backend, user, EmpresaData(Get(payload, "empresa")));
      company.Success? ==> InsertsFrom(calls, company.value, payload, parseNumber)
  {
    var ensured;
    ensured, calls := EnsureUsuarioRecord(user, EmptyObj, backend);
    var empresa := Get(payload, "empresa");
    var company := EmpresaWriteOf(backend, user, EmpresaData(empresa));
    if ensured.Failure? || !Truthy(SanitizeString(Get(empresa, "nome"))) {
      AccountCallsOnly(calls, empresa, if company.Success? then company.value else Null, payload, parseNumber);
      r := if ensured.Failure? then Failure(ensured.error) else Failure(InvalidInput);
      return;
    }
    var saveCalls;
    r, saveCalls := WriteThenFetch(backend, user, empresa, payload, stringify, parseNumber);
    AccountCallsPrefix(calls, saveCalls, empresa, if company.Success? then company.value else Null, payload, parseNumber);
    calls := calls + saveCalls;
  }

  /**
   * `saveWorkspaceContext`: the user is required and its record must be
   * ensured; an empty sanitised company name is INVALID_INPUT before any
   * company query; the company is updated or created, its products and
   * FAQs replaced by the kept ones; the result is a fresh fetch.
   */
  method SaveWorkspaceContext(payload: Value, backend: Backend, stringify: Value -> string, parseNumber: string -> Value)
    returns (r: Result<Value, ClientError>, calls: seq<Call>)
    ensures |calls| >= 1 && calls[0] == GetUser
    ensures InsertsAreValid(calls)
    ensures AuthenticatedUser(backend.getUser).Failure? ==>
      r == Failure(AuthenticatedUser(backend.getUser).error) && calls == [GetUser]
    ensures AuthenticatedUser(backend.getUser).Success? && !Truthy(SanitizeString(Get(Get(payload, "empresa"), "nome"))) ==>
      r.Failure? && forall c :: c in calls ==> !TouchesEmpresa(c)
    ensures CompanyWritesOf(calls, Get(payload, "empresa"))
    ensures AuthenticatedUser(backend.getUser).Success? ==>
      var user := AuthenticatedUser(backend.getUser).value;
      var ensured := UsuarioRecordOf(user, EmptyObj, backend);
      var empresa := Get(payload, "empresa");
      var written := WorkspaceWriteOf(backend, user, empresa, payload, parseNumber);
      && (ensured.Failure? ==> r == Failure(ensured.error) && forall c :: c in calls ==> !TouchesEmpresa(c))
      && (ensured.Success? && !Truthy(SanitizeString(Get(empresa, "nome"))) ==> r == Failure(InvalidInput))
      && (ensured.Success? && Truthy(SanitizeString(Get(empresa, "nome"))) ==>
            && (written.Failure? ==> r == Failure(written.error))
            && (written.Success? ==> r == ContextOf(backend, stringify)))
    ensures r.Success? ==> r == ContextOf(backend, stringify)
    ensures AuthenticatedUser(backend.getUser).Success? ==>
      var user := AuthenticatedUser(backend.getUser).value;
      var company := EmpresaWriteOf(backend, user, EmpresaData(Get(payload, "empresa")));
      company.Success? ==> InsertsFrom(calls, company.value, payload, parseNumber)
  {
    calls := [GetUser];
    var auth := AuthenticatedUser(backend.getUser);
    if auth.Failure? {
      return Failure(auth.error), calls;
    }
    var userCalls;
    r, userCalls := SaveAsUser(auth.value, payload, backend, stringify, parseNumber);
    var empresa := Get(payload, "empresa");
    var company := EmpresaWriteOf(backend, auth.value, EmpresaData(empresa));
    AccountCallsPrefix(calls, userCalls, empresa, if company.Success? then company.value else Null, payload, parseNumber);
    calls := calls + userCalls;
  }
}
