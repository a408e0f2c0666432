/**
 * The data decisions of the console's views: HTML escaping, the draft-over-
 * committed overlays the profile and connection panels render, the toast
 * tone fallback, the error text a failed action shows, and the payload the
 * profile form submits.
 *
 * Form data is a map from field name to the submitted text; the number of
 * product and FAQ cards on the page are parameters.
 */
module UiHelpers {

  import opened Wrappers
  import opened Js
  import opened Domain

  // ---------------------------------------------------------------------------
  // escapeHTML

  /** `s.replace(/c/g, rep)`. */
  function ReplaceChar(s: string, c: char, rep: string): string {
    if s == [] then [] else (if s[0] == c then rep else [s[0]]) + ReplaceChar(s[1..], c, rep)
  }

  lemma {:induction false} ReplaceCharAppend(a: string, b: string, c: char, rep: string)
    ensures ReplaceChar(a + b, c, rep) == ReplaceChar(a, c, rep) + ReplaceChar(b, c, rep)
    decreases |a|
  {
    if a == [] {
      assert a + b == b;
    } else {
      assert (a + b)[1..] == a[1..] + b;
      ReplaceCharAppend(a[1..], b, c, rep);
    }
  }

  /** The five passes of escapeHTML, in source order: `&` first. */
  function EscapePasses(s: string): string {
    ReplaceChar(ReplaceChar(ReplaceChar(ReplaceChar(ReplaceChar(s, '&', "&amp;"), '<', "&lt;"), '>', "&gt;"), '"', "&quot;"), '\'', "&#39;")
  }

  /** The entity one character becomes. */
  function EntityOf(c: char): string {
    match c
    case '&' => "&amp;"
    case '<' => "&lt;"
    case '>' => "&gt;"
    case '"' => "&quot;"
    case '\'' => "&#39;"
    case _ => [c]
  }

  /** Reference escaping: each character replaced by its entity, independently. */
  function EscapeEach(s: string): (r: string)
    ensures '<' !in r && '>' !in r && '"' !in r && '\'' !in r
  {
    if s == [] then [] else EntityOf(s[0]) + EscapeEach(s[1..])
  }

  /** `escapeHTML(value)`. */
  function EscapeHTML(v: Value): (r: string)
    ensures r == EscapeEach(ToStr(Coalesce(v, Str(""))))
    ensures Nullish(v) ==> r == ""
  {
    PassesAreEach(ToStr(Coalesce(v, Str(""))));
    EscapePasses(ToStr(Coalesce(v, Str(""))))
  }

  lemma ReplaceAbsent(s: string, c: char, rep: string)
    requires c !in s
    ensures ReplaceChar(s, c, rep) == s
  {
  }

  lemma ReplaceSingle(x: char, c: char, rep: string)
    ensures ReplaceChar([x], c, rep) == if x == c then rep else [x]
  {
    assert [x][1..] == [];
  }

  lemma PassesOfChar(c: char)
    ensures EscapePasses([c]) == EntityOf(c)
  {
    var e := EntityOf(c);
    ReplaceSingle(c, '&', "&amp;");
    var s1 := ReplaceChar([c], '&', "&amp;");
    if c == '&' {
      Passes2to5Keep(s1);
    } else {
      assert s1 == [c];
      ReplaceSingle(c, '<', "&lt;");
      var s2 := ReplaceChar(s1, '<', "&lt;");
      if c == '<' {
        Passes3to5Keep(s2);
      } else {
        assert s2 == [c];
        ReplaceSingle(c, '>', "&gt;");
        var s3 := ReplaceChar(s2, '>', "&gt;");
        if c == '>' {
          Passes4to5Keep(s3);
        } else {
          assert s3 == [c];
          ReplaceSingle(c, '"', "&quot;");
          var s4 := ReplaceChar(s3, '"', "&quot;");
          if c == '"' {
            ReplaceAbsent(s4, '\'', "&#39;");
          } else {
            assert s4 == [c];
            ReplaceSingle(c, '\'', "&#39;");
          }
        }
      }
    }
  }

  lemma Passes2to5Keep(s: string)
    requires '<' !in s && '>' !in s && '"' !in s && '\'' !in s
    ensures ReplaceChar(ReplaceChar(ReplaceChar(ReplaceChar(s, '<', "&lt;"), '>', "&gt;"), '"', "&quot;"), '\'', "&#39;") == s
  {
    ReplaceAbsent(s, '<', "&lt;");
    Passes3to5Keep(s);
  }

  lemma Passes3to5Keep(s: string)
    requires '>' !in s && '"' !in s && '\'' !in s
    ensures ReplaceChar(ReplaceChar(ReplaceChar(s, '>', "&gt;"), '"', "&quot;"), '\'', "&#39;") == s
  {
    ReplaceAbsent(s, '>', "&gt;");
    Passes4to5Keep(s);
  }

  lemma Passes4to5Keep(s: string)
    requires '"' !in s && '\'' !in s
    ensures ReplaceChar(ReplaceChar(s, '"', "&quot;"), '\'', "&#39;") == s
  {
    ReplaceAbsent(s, '"', "&quot;");
    ReplaceAbsent(s, '\'', "&#39;");
  }

  /**
   * Because `&` is replaced first, the chained passes never touch an entity
   * an earlier pass produced: they escape each character on its own.
   */
  lemma {:induction false} PassesAreEach(s: string)
    ensures EscapePasses(s) == EscapeEach(s)
    decreases |s|
  {
    if s != [] {
      var t := s[1..];
      assert s == [s[0]] + t;
      ReplaceCharAppend([s[0]], t, '&', "&amp;");
      var a1, b1 := ReplaceChar([s[0]], '&', "&amp;"), ReplaceChar(t, '&', "&amp;");
      ReplaceCharAppend(a1, b1, '<', "&lt;");
      var a2, b2 := ReplaceChar(a1, '<', "&lt;"), ReplaceChar(b1, '<', "&lt;");
      ReplaceCharAppend(a2, b2, '>', "&gt;");
      var a3, b3 := ReplaceChar(a2, '>', "&gt;"), ReplaceChar(b2, '>', "&gt;");
      ReplaceCharAppend(a3, b3, '"', "&quot;");
      var a4, b4 := ReplaceChar(a3, '"', "&quot;"), ReplaceChar(b3, '"', "&quot;");
      ReplaceCharAppend(a4, b4, '\'', "&#39;");
      PassesOfChar(s[0]);
      PassesAreEach(t);
    }
  }

  /** Decoding of the five entities escapeHTML produces; any other text is kept. */
  function Unescape(s: string): string
    decreases |s|
  {
    if s == [] then []
    else if |s| >= 5 && s[..5] == "&amp;" then ['&'] + Unescape(s[5..])
    else if |s| >= 4 && s[..4] == "&lt;" then ['<'] + Unescape(s[4..])
    else if |s| >= 4 && s[..4] == "&gt;" then ['>'] + Unescape(s[4..])
    else if |s| >= 6 && s[..6] == "&quot;" then ['"'] + Unescape(s[6..])
    else if |s| >= 5 && s[..5] == "&#39;" then ['\''] + Unescape(s[5..])
    else [s[0]] + Unescape(s[1..])
  }

  /** Decoding an entity, or a character that needs none, gives back its character. */
  lemma UnescapeEntity(c: char, rest: string)
    ensures Unescape(EntityOf(c) + rest) == [c] + Unescape(rest)
  {
    if c == '&' {
      UnescapeAmp(rest);
    } else if c == '<' {
      UnescapeLt(rest);
    } else if c == '>' {
      UnescapeGt(rest);
    } else if c == '"' {
      UnescapeQuot(rest);
    } else if c == '\'' {
      UnescapeApos(rest);
    } else {
      assert EntityOf(c) == [c];
      UnescapePlain(c, rest);
    }
  }

  lemma UnescapePlain(c: char, rest: string)
    requires c != '&'
    ensures Unescape([c] + rest) == [c] + Unescape(rest)
  {
    var t := [c] + rest;
    assert t[0] == c && t[1..] == rest;
    assert |t| >= 4 ==> t[..4][0] == c;
    assert |t| >= 5 ==> t[..5][0] == c;
    assert |t| >= 6 ==> t[..6][0] == c;
  }

  lemma UnescapeAmp(rest: string)
    ensures Unescape("&amp;" + rest) == "&" + Unescape(rest)
  {
    var t := "&amp;" + rest;
    assert t[..5] == "&amp;" && t[5..] == rest;
  }

  lemma UnescapeLt(rest: string)
    ensures Unescape("&lt;" + rest) == "<" + Unescape(rest)
  {
    var t := "&lt;" + rest;
    assert t[..4] == "&lt;" && t[4..] == rest;
    assert |t| >= 5 ==> t[..5][1] == 'l';
  }

  lemma UnescapeGt(rest: string)
    ensures Unescape("&gt;" + rest) == ">" + Unescape(rest)
  {
    var t := "&gt;" + rest;
    assert t[..4] == "&gt;" && t[4..] == rest;
    assert |t| >= 5 ==> t[..5][1] == 'g';
    assert t[..4][1] == 'g';
  }

  lemma UnescapeQuot(rest: string)
    ensures Unescape("&quot;" + rest) == "\"" + Unescape(rest)
  {
    var t := "&quot;" + rest;
    assert t[..6] == "&quot;" && t[6..] == rest;
    assert t[..5][1] == 'q' && t[..4][1] == 'q';
  }

  lemma UnescapeApos(rest: string)
    ensures Unescape("&#39;" + rest) == "'" + Unescape(rest)
  {
    var t := "&#39;" + rest;
    assert t[..5] == "&#39;" && t[5..] == rest;
    assert t[..5][1] == '#' && t[..4][1] == '#';
    assert |t| >= 6 ==> t[..6][1] == '#';
  }

  /** Escaped text reads back as the original: no entity is produced twice or lost. */
  lemma {:induction false} UnescapeEscape(s: string)
    ensures Unescape(EscapeEach(s)) == s
    decreases |s|
  {
    if s != [] {
      UnescapeEntity(s[0], EscapeEach(s[1..]));
      UnescapeEscape(s[1..]);
      assert s == [s[0]] + s[1..];
    }
  }

  // ---------------------------------------------------------------------------
  // Overlays and small lookups

  /** What the profile panel shows: the committed company with the draft, when present, on top. */
  datatype DadosView = DadosView(empresa: map<string, Value>, persona: Value, produtos: Value, faqs: Value)

  function DadosViewOf(s: AppState): (r: DadosView)
    ensures s.forms.dados.Some? ==>
      (forall k :: k in EmpresaFields(s.forms.dados.value.empresa) ==>
         k in r.empresa && r.empresa[k] == EmpresaFields(s.forms.dados.value.empresa)[k])
      && r.produtos == Arr(ProdutosToJs(s.forms.dados.value.produtos))
      && r.faqs == Arr(FaqsToJs(s.forms.dados.value.faqs))
    ensures s.forms.dados.None? && s.empresa.Obj? ==> r.empresa == s.empresa.fields
    ensures forall k :: k in Spread(s.empresa) && (s.forms.dados.None? || k !in EmpresaFields(s.forms.dados.value.empresa)) ==>
      k in r.empresa && r.empresa[k] == Spread(s.empresa)[k]
    ensures Truthy(r.persona)
    ensures Truthy(Get(Obj(r.empresa), "persona")) ==> r.persona == Get(Obj(r.empresa), "persona")
    ensures !Truthy(Get(Obj(r.empresa), "persona")) ==> r.persona == Str("josi")
    ensures s.forms.dados.None? && Truthy(s.empresa) && !Nullish(Get(s.empresa, "produtos")) ==>
      r.produtos == Get(s.empresa, "produtos")
    ensures s.forms.dados.None? && Truthy(s.empresa) && !Nullish(Get(s.empresa, "faqs")) ==>
      r.faqs == Get(s.empresa, "faqs")
    ensures s.forms.dados.None? && (!Truthy(s.empresa) || Nullish(Get(s.empresa, "produtos"))) ==> r.produtos == Arr([])
    ensures s.forms.dados.None? && (!Truthy(s.empresa) || Nullish(Get(s.empresa, "faqs"))) ==> r.faqs == Arr([])
  {
    var base := Or(s.empresa, EmptyObj);
    var form := match s.forms.dados
      case Some(d) => Spread(base) + EmpresaFields(d.empresa)
      case None => Spread(base);
    DadosView(
      form,
      Or(Get(Obj(form), "persona"), Str("josi")),
      match s.forms.dados
        case Some(d) => Arr(ProdutosToJs(d.produtos))
        case None => Coalesce(Get(base, "produtos"), Arr([])),
      match s.forms.dados
        case Some(d) => Arr(FaqsToJs(d.faqs))
        case None => Coalesce(Get(base, "faqs"), Arr([])))
  }

  /** What the connection panel shows: the first instance with the settings draft, when present, on top. */
  function ConexoesViewOf(s: AppState): (r: map<string, Value>)
    ensures s.forms.instancias.Some? ==> forall k :: k in InstFields(s.forms.instancias.value) ==>
      k in r && r[k] == InstFields(s.forms.instancias.value)[k]
    ensures s.forms.instancias.Some? ==>
      && r.Keys == Spread(At(s.instancias, 0)).Keys + InstFields(s.forms.instancias.value).Keys
      && forall k :: k in Spread(At(s.instancias, 0)) && k !in InstFields(s.forms.instancias.value) ==>
           r[k] == Spread(At(s.instancias, 0))[k]
    ensures s.forms.instancias.None? ==> r == Spread(At(s.instancias, 0))
  {
    var base := Or(At(s.instancias, 0), EmptyObj);
    match s.forms.instancias
    case Some(d) => Spread(base) + InstFields(d)
    case None => Spread(base)
  }

  const ToneKeys: set<string> := {"success", "error", "info"}

  /** The tone a toast is rendered with: its own when known, `info` otherwise. */
  function ToneKey(t: Option<Toast>): (r: string)
    ensures r in ToneKeys
    ensures t.Some? && t.value.tone in ToneKeys ==> r == t.value.tone
    ensures (t.None? || t.value.tone !in ToneKeys) ==> r == "info"
  {
    if t.Some? && t.value.tone in ToneKeys then t.value.tone else "info"
  }

  /** `error?.message || fallback`. */
  function ErrorMessage(err: Value, fallback: string): (r: Value)
    ensures Truthy(Get(err, "message")) ==> r == Get(err, "message")
    ensures !Truthy(Get(err, "message")) ==> r == Str(fallback)
  {
    Or(Get(err, "message"), Str(fallback))
  }

  // ---------------------------------------------------------------------------
  // The profile form's payload

  /** `data.get(name) || ''`. */
  function FormText(data: map<string, string>, name: string): string {
    if name in data then data[name] else ""
  }

  /** The name of field `field` of card `i` of a collection: `collection[i].field`. */
  function FieldName(collection: string, i: nat, field: string): string {
    collection + "[" + NatToString(i) + "]." + field
  }

  function EmpresaOf(data: map<string, string>): (e: EmpresaDraft)
    ensures e.persona != ""
    ensures e.nome == FormText(data, "empresa_nome")
  {
    EmpresaDraft(
      FormText(data, "empresa_nome"), FormText(data, "empresa_tipo"),
      FormText(data, "horario_funcionamento"), FormText(data, "contatos_extras"),
      FormText(data, "endereco"), FormText(data, "observacoes"),
      if FormText(data, "persona") == "" then "josi" else FormText(data, "persona"))
  }

  /** The product card `i` reads as, whether or not it is kept. */
  function ProdutoAt(data: map<string, string>, i: nat): ProdutoDraft {
    ProdutoDraft(FormText(data, FieldName("produtos", i, "nome")),
                 FormText(data, FieldName("produtos", i, "descricao")),
                 FormText(data, FieldName("produtos", i, "preco")))
  }

  function FaqAt(data: map<string, string>, i: nat): FaqDraft {
    FaqDraft(FormText(data, FieldName("faqs", i, "pergunta")), FormText(data, FieldName("faqs", i, "resposta")))
  }

  /** The products of the first `n` cards that have a name, in card order. */
  function KeptProdutos(data: map<string, string>, n: nat): (r: seq<ProdutoDraft>)
    ensures forall i :: 0 <= i < |r| ==> r[i].nome != ""
  {
    if n == 0 then []
    else KeptProdutos(data, n - 1) + (if ProdutoAt(data, n - 1).nome != "" then [ProdutoAt(data, n - 1)] else [])
  }

  /** The FAQs of the first `n` cards with both a question and an answer, in card order. */
  function KeptFaqs(data: map<string, string>, n: nat): (r: seq<FaqDraft>)
    ensures forall i :: 0 <= i < |r| ==> r[i].pergunta != "" && r[i].resposta != ""
  {
    if n == 0 then []
    else
      var f := FaqAt(data, n - 1);
      KeptFaqs(data, n - 1) + (if f.pergunta != "" && f.resposta != "" then [f] else [])
  }

  /** A product is submitted exactly when some card reads as it and it has a name. */
  lemma {:induction false} KeptProdutosMembers(data: map<string, string>, n: nat, p: ProdutoDraft)
    ensures p in KeptProdutos(data, n) <==> p.nome != "" && exists i :: 0 <= i < n && ProdutoAt(data, i) == p
  {
    if n > 0 {
      KeptProdutosMembers(data, n - 1, p);
      var q := ProdutoAt(data, n - 1);
      var prev := KeptProdutos(data, n - 1);
      assert KeptProdutos(data, n) == prev + (if q.nome != "" then [q] else []);
      if p in KeptProdutos(data, n) && p !in prev {
        assert p == q && ProdutoAt(data, n - 1) == p;
      }
      if p.nome != "" && exists i :: 0 <= i < n && ProdutoAt(data, i) == p {
        var i :| 0 <= i < n && ProdutoAt(data, i) == p;
        assert i == n - 1 ==> p == q;
      }
    }
  }

  /** A FAQ is submitted exactly when some card reads as it and both its texts are non-empty. */
  lemma {:induction false} KeptFaqsMembers(data: map<string, string>, n: nat, f: FaqDraft)
    ensures f in KeptFaqs(data, n) <==> f.pergunta != "" && f.resposta != "" && exists i :: 0 <= i < n && FaqAt(data, i) == f
  {
    if n > 0 {
      KeptFaqsMembers(data, n - 1, f);
      var q := FaqAt(data, n - 1);
      var prev := KeptFaqs(data, n - 1);
      assert KeptFaqs(data, n) == prev + (if q.pergunta != "" && q.resposta != "" then [q] else []);
      if f in KeptFaqs(data, n) && f !in prev {
        assert f == q && FaqAt(data, n - 1) == f;
      }
      if f.pergunta != "" && f.resposta != "" && exists i :: 0 <= i < n && FaqAt(data, i) == f {
        var i :| 0 <= i < n && FaqAt(data, i) == f;
        assert i == n - 1 ==> f == q;
      }
    }
  }

  /** Card order is kept: what the first cards contribute comes before what later cards add. */
  lemma KeptInCardOrder(data: map<string, string>, m: nat, n: nat)
    requires m <= n
    ensures KeptProdutos(data, m) <= KeptProdutos(data, n)
    ensures KeptFaqs(data, m) <= KeptFaqs(data, n)
    ensures |KeptProdutos(data, n)| <= n && |KeptFaqs(data, n)| <= n
  {
    KeptProdutosInOrder(data, m, n);
    KeptFaqsInOrder(data, m, n);
  }

  /** One more card adds at most one entry, after the others. */
  lemma KeptProdutosStep(data: map<string, string>, n: nat)
    requires n > 0
    ensures KeptProdutos(data, n - 1) <= KeptProdutos(data, n) && |KeptProdutos(data, n)| <= |KeptProdutos(data, n - 1)| + 1
  {
    var prev := KeptProdutos(data, n - 1);
    assert KeptProdutos(data, n)[..|prev|] == prev;
  }

  /** The kept products of the first `m` cards are a prefix of those of the first `n`, and there are at most `n`. */
  lemma {:induction false} KeptProdutosInOrder(data: map<string, string>, m: nat, n: nat)
    requires m <= n
    ensures KeptProdutos(data, m) <= KeptProdutos(data, n) && |KeptProdutos(data, n)| <= n
    decreases n
  {
    if n > 0 {
      KeptProdutosInOrder(data, if m < n then m else n - 1, n - 1);
      KeptProdutosStep(data, n);
    }
  }

  /** One more card adds at most one entry, after the others. */
  lemma KeptFaqsStep(data: map<string, string>, n: nat)
    requires n > 0
    ensures KeptFaqs(data, n - 1) <= KeptFaqs(data, n) && |KeptFaqs(data, n)| <= |KeptFaqs(data, n - 1)| + 1
  {
    var prev := KeptFaqs(data, n - 1);
    assert KeptFaqs(data, n)[..|prev|] == prev;
  }

  /** The kept FAQs of the first `m` cards are a prefix of those of the first `n`, and there are at most `n`. */
  lemma {:induction false} KeptFaqsInOrder(data: map<string, string>, m: nat, n: nat)
    requires m <= n
    ensures KeptFaqs(data, m) <= KeptFaqs(data, n) && |KeptFaqs(data, n)| <= n
    decreases n
  {
    if n > 0 {
      KeptFaqsInOrder(data, if m < n then m else n - 1, n - 1);
      KeptFaqsStep(data, n);
    }
  }

  /**
   * The submit handler's payload: the company fields with their defaults,
   * then one pass over the product cards and one over the FAQ cards, pushing
   * the ones that are filled in.
   */
  method BuildDadosPayload(data: map<string, string>, produtoCards: nat, faqCards: nat) returns (p: DadosPayload)
    ensures p.empresa == EmpresaOf(data)
    ensures p.produtos == KeptProdutos(data, produtoCards)
    ensures p.faqs == KeptFaqs(data, faqCards)
  {
    var produtos := CollectProdutos(data, produtoCards);
    var faqs := CollectFaqs(data, faqCards);
    p := DadosPayload(EmpresaOf(data), produtos, faqs);
  }

  /** The pass over the product cards: each one with a name is pushed, in card order. */
  method CollectProdutos(data: map<string, string>, produtoCards: nat) returns (produtos: seq<ProdutoDraft>)
    ensures produtos == KeptProdutos(data, produtoCards)
  {
    produtos := [];
    var i := 0;
    while i < produtoCards
      invariant 0 <= i <= produtoCards
      invariant produtos == KeptProdutos(data, i)
    {
      var produto := ProdutoAt(data, i);
      if produto.nome != "" {
        produtos := produtos + [produto];
      }
      i := i + 1;
    }
  }

  /** The pass over the FAQ cards: each one with a question and an answer is pushed, in card order. */
  method CollectFaqs(data: map<string, string>, faqCards: nat) returns (faqs: seq<FaqDraft>)
    ensures faqs == KeptFaqs(data, faqCards)
  {
    faqs := [];
    var i := 0;
    while i < faqCards
      invariant 0 <= i <= faqCards
      invariant faqs == KeptFaqs(data, i)
    {
      var faq := FaqAt(data, i);
      if faq.pergunta != "" && faq.resposta != "" {
        faqs := faqs + [faq];
      }
      i := i + 1;
    }
  }
}
