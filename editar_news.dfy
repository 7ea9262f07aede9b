/**
 * The admin "edit article" modal: it loads its six text fields from the article
 * it is given, validates them, sends the trimmed update to the backend and reacts
 * to the response; cancelling asks for confirmation only when something changed.
 *
 * Side effects are recorded, in order, as events: toasts, the `fechar` and
 * `aoSalvar` callbacks, the PUT request and the cancel confirmation dialog.
 * Device storage is a map from keys to strings.
 */
module EditarNews {
  import opened Options
  import opened Text
  import opened Validation

  /**
   * The article object the modal receives. Any field may be missing; the fields a
   * spread copy carries along unchanged are represented by the ones listed here.
   */
  datatype Noticia = Noticia(
    id: Option<int>,
    titulo: Option<string>,
    descricao: Option<string>,
    autor: Option<string>,
    autores: Option<string>,
    categoria: Option<string>,
    link: Option<string>,
    imagemURL: Option<string>)

  /** The modal's six text state slots. */
  datatype Formulario = Formulario(
    titulo: string,
    imagemUrl: string,
    descricao: string,
    autor: string,
    link: string,
    categoria: string)

  const FormularioVazio: Formulario := Formulario("", "", "", "", "", "")

  /** The form filled from `n`, each missing field read as `''`. */
  function Valores(n: Noticia): Formulario
  {
    Formulario(OrEmpty(n.titulo), OrEmpty(n.imagemURL), OrEmpty(n.descricao),
               OrEmpty(n.autor), OrEmpty(n.link), OrEmpty(n.categoria))
  }

  /** The load effect: a present article replaces the form, an absent one leaves it as it is. */
  function CarregarFormulario(atual: Formulario, noticia: Option<Noticia>): (f: Formulario)
    ensures noticia.None? ==> f == atual
    ensures noticia.Some? && noticia.value.titulo.Some? ==> f.titulo == noticia.value.titulo.value
    ensures noticia.Some? && noticia.value.titulo.None? ==> f.titulo == ""
    ensures noticia.Some? && noticia.value.descricao.Some? ==> f.descricao == noticia.value.descricao.value
    ensures noticia.Some? && noticia.value.descricao.None? ==> f.descricao == ""
    ensures noticia.Some? && noticia.value.autor.Some? ==> f.autor == noticia.value.autor.value
    ensures noticia.Some? && noticia.value.autor.None? ==> f.autor == ""
    ensures noticia.Some? && noticia.value.categoria.Some? ==> f.categoria == noticia.value.categoria.value
    ensures noticia.Some? && noticia.value.categoria.None? ==> f.categoria == ""
    ensures noticia.Some? && noticia.value.link.Some? ==> f.link == noticia.value.link.value
    ensures noticia.Some? && noticia.value.link.None? ==> f.link == ""
    ensures noticia.Some? && noticia.value.imagemURL.Some? ==> f.imagemUrl == noticia.value.imagemURL.value
    ensures noticia.Some? && noticia.value.imagemURL.None? ==> f.imagemUrl == ""
  {
    match noticia
    case Some(n) => Valores(n)
    case None => atual
  }

  // ---------------------------------------------------------------- validation

  /** The fields the rules look at: link and image URL are not checked. */
  function Campos(f: Formulario): Fields
  {
    Fields(f.titulo, f.descricao, f.autor, f.categoria)
  }

  /** The warning text this modal shows for each rule. */
  function Aviso(rule: Rule): string
  {
    match rule
    case TitleRequired => "O título é obrigatório"
    case DescriptionRequired => "A descrição é obrigatória"
    case AuthorRequired => "O autor é obrigatório"
    case CategoryRequired => "A categoria é obrigatória"
  }

  /**
   * `validarCampos`: no warning (the function returns true) exactly when every
   * rule passes; otherwise the warning of the first failing rule.
   */
  function ValidarCampos(f: Formulario): (aviso: Option<string>)
    ensures aviso.None? <==> forall rule :: !Fails(rule, Campos(f))
    ensures aviso.Some? ==> exists rule :: IsFirstFailure(rule, Campos(f)) && aviso.value == Aviso(rule)
  {
    FirstFailureIsFirst(Campos(f));
    match FirstFailure(Campos(f))
    case None => None
    case Some(rule) => Some(Aviso(rule))
  }

  // ---------------------------------------------------------------- update payload

  /** The body of the PUT request. */
  datatype DadosAtualizacao = DadosAtualizacao(
    titulo: string,
    autor: string,
    descricao: string,
    categoria: string,
    link: string,
    imagemURL: string)

  /** `dadosAtualizacao`: every text field trimmed except the category, which is sent as chosen. */
  function MontarDados(f: Formulario): DadosAtualizacao
  {
    DadosAtualizacao(Trim(f.titulo), Trim(f.autor), Trim(f.descricao), f.categoria, Trim(f.link), Trim(f.imagemUrl))
  }

  /** `s` neither starts nor ends with whitespace. */
  predicate SemEspacosNasPontas(s: string)
  {
    s == [] || (!IsWhitespace(s[0]) && !IsWhitespace(s[|s| - 1]))
  }

  /**
   * The payload's trimmed fields carry no whitespace at either end and are
   * unchanged by trimming again; the category is exactly the chosen one. For a
   * form that passed validation, title, description and author are not empty.
   */
  lemma DadosAparados(f: Formulario)
    ensures var d := MontarDados(f);
      SemEspacosNasPontas(d.titulo) && SemEspacosNasPontas(d.autor) && SemEspacosNasPontas(d.descricao)
      && SemEspacosNasPontas(d.link) && SemEspacosNasPontas(d.imagemURL)
      && Trim(d.titulo) == d.titulo && Trim(d.autor) == d.autor && Trim(d.descricao) == d.descricao
      && Trim(d.link) == d.link && Trim(d.imagemURL) == d.imagemURL
      && d.categoria == f.categoria
    ensures ValidarCampos(f).None? ==>
      MontarDados(f).titulo != [] && MontarDados(f).descricao != [] && MontarDados(f).autor != []
  {
    TrimEdges(f.titulo);
    TrimEdges(f.autor);
    TrimEdges(f.descricao);
    TrimEdges(f.link);
    TrimEdges(f.imagemUrl);
    TrimIdempotent(f.titulo);
    TrimIdempotent(f.autor);
    TrimIdempotent(f.descricao);
    TrimIdempotent(f.link);
    TrimIdempotent(f.imagemUrl);
    if ValidarCampos(f).None? {
      assert !Fails(TitleRequired, Campos(f)) && !Fails(DescriptionRequired, Campos(f));
      assert !Fails(AuthorRequired, Campos(f));
    }
  }

  /**
   * The record handed to `aoSalvar`: the original article with title,
   * description, category, link and image URL taken from the payload. The author
   * goes to the `autores` field, so the article's own `autor` is kept.
   */
  function NoticiaSalva(n: Noticia, d: DadosAtualizacao): (r: Noticia)
    ensures r.titulo == Some(d.titulo) && r.descricao == Some(d.descricao)
    ensures r.autores == Some(d.autor)
    ensures r.categoria == Some(d.categoria) && r.link == Some(d.link) && r.imagemURL == Some(d.imagemURL)
    ensures r.id == n.id && r.autor == n.autor
  {
    n.(titulo := Some(d.titulo), autores := Some(d.autor), descricao := Some(d.descricao),
       categoria := Some(d.categoria), link := Some(d.link), imagemURL := Some(d.imagemURL))
  }

  /**
   * Opening the modal again on the record handed to `aoSalvar` shows what was
   * saved (trimmed), except the author: that field is loaded from `autor`, which
   * still holds the article's original author.
   */
  lemma ReabrirAposSalvar(n: Noticia, f: Formulario)
    ensures Valores(NoticiaSalva(n, MontarDados(f)))
      == Formulario(Trim(f.titulo), Trim(f.imagemUrl), Trim(f.descricao), OrEmpty(n.autor), Trim(f.link), f.categoria)
  {
  }

  // ---------------------------------------------------------------- response

  /** What the PUT request produced. */
  datatype Corpo =
    | Json(error: Option<string>)   // a body that parses; `error` is its `error` field
    | Ilegivel(mensagem: string)    // a body whose parsing throws, with the error's message

  datatype Resposta =
    | Http(status: nat, statusText: string, corpo: Corpo)
    | FalhaDeRede(mensagem: string)  // `fetch` itself threw

  /** `resposta.ok`. */
  predicate Ok(status: nat)
  {
    200 <= status <= 299
  }

  /** How the save ends once the request was sent. */
  datatype Desfecho = SessaoExpirada | Atualizada | Falhou(mensagem: string)

  function Digito(d: nat): char
    requires d < 10
  {
    "0123456789"[d]
  }

  /** The decimal text of `n`, as a template literal prints a status code. */
  function Decimal(n: nat): string
    decreases n
  {
    if n < 10 then [Digito(n)] else Decimal(n / 10) + [Digito(n % 10)]
  }

  /** The message of the error thrown for a non-ok status: the body's `error` if it is a non-empty string, else the status line. */
  function MensagemDeErro(status: nat, statusText: string, error: Option<string>): string
  {
    if error.Some? && error.value != "" then error.value
    else "Erro " + Decimal(status) + ": " + statusText
  }

  /**
   * The status-to-outcome branching: 401 expires the session; any other non-ok
   * status fails with the server's error message or the status line; an ok status
   * succeeds once its body parses; a body that does not parse, or a request that
   * threw, fails with the thrown error's message.
   */
  function ClassificarResposta(resposta: Resposta): (d: Desfecho)
    ensures d == SessaoExpirada <==> resposta.Http? && resposta.status == 401
    ensures d == Atualizada <==> resposta.Http? && Ok(resposta.status) && resposta.corpo.Json?
    ensures resposta.FalhaDeRede? ==> d == Falhou(resposta.mensagem)
    ensures resposta.Http? && resposta.status != 401 && resposta.corpo.Ilegivel? ==> d == Falhou(resposta.corpo.mensagem)
    ensures resposta.Http? && resposta.status != 401 && !Ok(resposta.status) && resposta.corpo.Json? ==>
      d == Falhou(MensagemDeErro(resposta.status, resposta.statusText, resposta.corpo.error))
  {
    match resposta
    case FalhaDeRede(m) => Falhou(m)
    case Http(status, statusText, corpo) =>
      if status == 401 then SessaoExpirada
      else if !Ok(status) then
        match corpo
        case Ilegivel(m) => Falhou(m)
        case Json(error) => Falhou(MensagemDeErro(status, statusText, error))
      else
        match corpo
        case Ilegivel(m) => Falhou(m)
        case Json(_) => Atualizada
  }

  // ---------------------------------------------------------------- effects

  datatype StatusToast = Warning | Error | Success

  datatype Evento =
    | Toast(descricao: string, status: StatusToast)
    | Fechar                                               // the `fechar` callback
    | Put(id: int, token: string, dados: DadosAtualizacao)  // the PUT to /noticias/:id
    | AoSalvar(noticia: Noticia)                           // the `aoSalvar` callback
    | ConfirmarCancelamento                                // the "discard changes?" dialog

  const ChaveToken: string := "userToken"
  const MsgIdAusente: string := "Erro: ID da notícia não encontrado"
  const MsgSessaoExpirada: string := "Sessão expirada. Faça login novamente."
  const MsgAtualizada: string := "Notícia atualizada com sucesso!"

  /** `noticia?.id` is truthy: the article exists and has an id other than 0. */
  predicate TemId(noticia: Option<Noticia>)
  {
    noticia.Some? && noticia.value.id.Some? && noticia.value.id.value != 0
  }

  /** The stored token, `''` standing for a missing one (both are falsy). */
  function Token(armazenamento: map<string, string>): string
  {
    if ChaveToken in armazenamento then armazenamento[ChaveToken] else ""
  }

  /** The events that follow the request, for each outcome. */
  function EventosDoDesfecho(d: Desfecho, n: Noticia, dados: DadosAtualizacao, temAoSalvar: bool): seq<Evento>
  {
    match d
    case SessaoExpirada => [Toast(MsgSessaoExpirada, Error), Fechar]
    case Falhou(m) => [Toast(m, Error)]
    case Atualizada =>
      [Toast(MsgAtualizada, Success)]
      + (if temAoSalvar then [AoSalvar(NoticiaSalva(n, dados))] else [])
      + [Fechar]
  }

  /** `aoSalvar` is called with `r` among `evs`. */
  predicate ChamaAoSalvar(evs: seq<Evento>, r: Noticia)
  {
    AoSalvar(r) in evs
  }

  /**
   * After the request: `aoSalvar` is called only on success, only when given, and
   * then with the saved record; the modal closes on success and on an expired
   * session, and stays open when the save failed.
   */
  lemma DesfechoEfeitos(d: Desfecho, n: Noticia, dados: DadosAtualizacao, temAoSalvar: bool, r: Noticia)
    ensures ChamaAoSalvar(EventosDoDesfecho(d, n, dados, temAoSalvar), r) <==>
      d == Atualizada && temAoSalvar && r == NoticiaSalva(n, dados)
    ensures Fechar in EventosDoDesfecho(d, n, dados, temAoSalvar) <==> !d.Falhou?
    ensures forall e :: e in EventosDoDesfecho(d, n, dados, temAoSalvar) ==> !e.Put?
  {
    var evs := EventosDoDesfecho(d, n, dados, temAoSalvar);
    if AoSalvar(r) in evs {
      var i :| 0 <= i < |evs| && evs[i] == AoSalvar(r);
      assert d == Atualizada && temAoSalvar && i == 1;
    }
  }

  // ---------------------------------------------------------------- change detection

  /** `noticia?.campo || ''`. */
  function Campo(noticia: Option<Noticia>, campo: Noticia -> Option<string>): string
  {
    if noticia.Some? then OrEmpty(campo(noticia.value)) else ""
  }

  /** `temAlteracoes`: some field differs from the article's value (or from `''` when that is missing). */
  predicate TemAlteracoes(f: Formulario, noticia: Option<Noticia>)
  {
    f.titulo != Campo(noticia, (n: Noticia) => n.titulo)
    || f.descricao != Campo(noticia, (n: Noticia) => n.descricao)
    || f.autor != Campo(noticia, (n: Noticia) => n.autor)
    || f.imagemUrl != Campo(noticia, (n: Noticia) => n.imagemURL)
    || f.link != Campo(noticia, (n: Noticia) => n.link)
    || f.categoria != Campo(noticia, (n: Noticia) => n.categoria)
  }

  /**
   * There are no changes exactly when the form is what loading the article would
   * give (all fields empty when there is no article); in particular a freshly
   * loaded form has none.
   */
  lemma SemAlteracoesIff(f: Formulario, noticia: Option<Noticia>)
    ensures !TemAlteracoes(f, noticia) <==> f == CarregarFormulario(FormularioVazio, noticia)
    ensures !TemAlteracoes(CarregarFormulario(f, noticia), noticia) <==> (noticia.Some? || f == FormularioVazio)
  {
  }

  /** The modal's state and the outside world it touches. */
  class ModalEditarNoticia {
    var noticia: Option<Noticia>
    const temAoSalvar: bool
    var form: Formulario
    var carregando: bool
    var armazenamento: map<string, string>
    var eventos: seq<Evento>

    /** Mounting the modal: the state slots start empty and the load effect runs once. */
    constructor (noticia: Option<Noticia>, temAoSalvar: bool, armazenamento: map<string, string>)
      ensures this.noticia == noticia && this.temAoSalvar == temAoSalvar
      ensures this.armazenamento == armazenamento
      ensures form == CarregarFormulario(FormularioVazio, noticia)
      ensures !carregando && eventos == []
    {
      this.noticia := noticia;
      this.temAoSalvar := temAoSalvar;
      this.armazenamento := armazenamento;
      form := CarregarFormulario(FormularioVazio, noticia);
      carregando := false;
      eventos := [];
    }

    /** A new `noticia` prop: the load effect runs again. */
    method ReceberNoticia(n: Option<Noticia>)
      modifies this
      ensures noticia == n && form == CarregarFormulario(old(form), n)
      ensures carregando == old(carregando) && armazenamento == old(armazenamento) && eventos == old(eventos)
    {
      noticia := n;
      form := CarregarFormulario(form, n);
    }

    /**
     * `salvarAlteracoes`, run to completion with `resposta` as the backend's answer.
     * Nothing is sent and `carregando` is untouched when validation fails or the
     * article has no id. Once `carregando` is set it is false again at the end of
     * every path. A missing token closes the modal; otherwise one PUT carrying the
     * trimmed payload and the token is sent, and what follows depends on the outcome:
     * a 401 removes only the token from storage.
     */
    method SalvarAlteracoes(resposta: Resposta)
      modifies this
      ensures noticia == old(noticia) && form == old(form)
      ensures ValidarCampos(form).Some? ==>
        eventos == old(eventos) + [Toast(ValidarCampos(form).value, Warning)]
        && carregando == old(carregando) && armazenamento == old(armazenamento)
      ensures ValidarCampos(form).None? && !TemId(noticia) ==>
        eventos == old(eventos) + [Toast(MsgIdAusente, Error)]
        && carregando == old(carregando) && armazenamento == old(armazenamento)
      ensures ValidarCampos(form).None? && TemId(noticia) ==> !carregando
      ensures ValidarCampos(form).None? && TemId(noticia) && Token(old(armazenamento)) == "" ==>
        eventos == old(eventos) + [Toast(MsgSessaoExpirada, Error), Fechar]
        && armazenamento == old(armazenamento)
      ensures ValidarCampos(form).None? && TemId(noticia) && Token(old(armazenamento)) != "" ==>
        eventos == old(eventos)
          + [Put(noticia.value.id.value, Token(old(armazenamento)), MontarDados(form))]
          + EventosDoDesfecho(ClassificarResposta(resposta), noticia.value, MontarDados(form), temAoSalvar)
        && armazenamento == (if ClassificarResposta(resposta) == SessaoExpirada
                             then old(armazenamento) - {ChaveToken}
                             else old(armazenamento))
    {
      var aviso := ValidarCampos(form);
      if aviso.Some? {
        eventos := eventos + [Toast(aviso.value, Warning)];
        return;
      }
      if !TemId(noticia) {
        eventos := eventos + [Toast(MsgIdAusente, Error)];
        return;
      }

      carregando := true;

      var token := Token(armazenamento);
      if token == "" {
        eventos := eventos + [Toast(MsgSessaoExpirada, Error), Fechar];
        carregando := false;
        return;
      }

      var dados := MontarDados(form);
      eventos := eventos + [Put(noticia.value.id.value, token, dados)];

      var desfecho := ClassificarResposta(resposta);
      match desfecho {
        case SessaoExpirada =>
          armazenamento := armazenamento - {ChaveToken};
          eventos := eventos + [Toast(MsgSessaoExpirada, Error), Fechar];
        case Falhou(mensagem) =>
          eventos := eventos + [Toast(mensagem, Error)];
        case Atualizada =>
          eventos := eventos + [Toast(MsgAtualizada, Success)];
          if temAoSalvar {
            eventos := eventos + [AoSalvar(NoticiaSalva(noticia.value, dados))];
          }
          eventos := eventos + [Fechar];
      }

      carregando := false;
    }

    /** `handleCancelar`: ask before discarding changes, close straight away when there are none. */
    method HandleCancelar() returns (perguntou: bool)
      modifies this
      ensures perguntou == TemAlteracoes(form, noticia)
      ensures eventos == old(eventos) + [if perguntou then ConfirmarCancelamento else Fechar]
      ensures noticia == old(noticia) && form == old(form)
      ensures carregando == old(carregando) && armazenamento == old(armazenamento)
    {
      perguntou := TemAlteracoes(form, noticia);
      if perguntou {
        eventos := eventos + [ConfirmarCancelamento];
      } else {
        eventos := eventos + [Fechar];
      }
    }
  }
}
