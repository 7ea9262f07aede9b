/**
 * The search screen: the articles loaded from the backend, the term typed by the
 * user, and the filtered list shown, kept in step by an effect that re-runs the
 * filter whenever the term or the loaded list changes.
 */
module Pesquisa {
  import opened Options
  import opened Text
  import opened Seqs

  /** An article as the search screen receives it. */
  datatype Noticia = Noticia(
    id: int,
    titulo: string,
    descricao: string,
    imagemURL: string,
    categoria: string,
    autor: string,
    dataPublicacao: string)

  /** The term as it is compared: lowercased, then trimmed. */
  function Chave(termo: string): string
  {
    Trim(ToLower(termo))
  }

  /** `n` mentions `chave` in its title, description, author or category, each lowercased. */
  predicate Menciona(n: Noticia, chave: string)
  {
    Includes(ToLower(n.titulo), chave)
    || Includes(ToLower(n.descricao), chave)
    || Includes(ToLower(n.autor), chave)
    || Includes(ToLower(n.categoria), chave)
  }

  /**
   * `filtrarNoticias`: a blank term shows every article; otherwise exactly the
   * articles that mention the term, in the order they were loaded.
   */
  function FiltrarNoticias(noticias: seq<Noticia>, termo: string): (r: seq<Noticia>)
    ensures Blank(termo) ==> r == noticias
    ensures !Blank(termo) ==> forall n :: n in r <==> n in noticias && Menciona(n, Chave(termo))
    ensures IsSubsequence(r, noticias) && |r| <= |noticias|
  {
    if Blank(termo) then
      SubsequenceRefl(noticias);
      noticias
    else
      Filter(n => Menciona(n, Chave(termo)), noticias)
  }

  /** A term made only of whitespace (the empty term included) filters nothing out. */
  lemma TermoEmBrancoMostraTudo(noticias: seq<Noticia>, termo: string)
    requires AllWhitespace(termo)
    ensures FiltrarNoticias(noticias, termo) == noticias
  {
    BlankIff(termo);
  }

  /**
   * Every article returned for a term with some non-whitespace character mentions
   * the lowercased, trimmed term in one of the four fields (soundness), and every
   * loaded article that does is returned (completeness), as often as it was loaded.
   */
  lemma FiltroExato(noticias: seq<Noticia>, termo: string)
    requires !AllWhitespace(termo)
    ensures forall n :: n in FiltrarNoticias(noticias, termo) ==> Menciona(n, ToLower(Trim(termo)))
    ensures forall n :: n in noticias && Menciona(n, ToLower(Trim(termo))) ==> n in FiltrarNoticias(noticias, termo)
    ensures |FiltrarNoticias(noticias, termo)| == Count(n => Menciona(n, ToLower(Trim(termo))), noticias)
  {
    BlankIff(termo);
    TrimToLowerCommute(termo);
    FilterAgree(n => Menciona(n, Chave(termo)), n => Menciona(n, ToLower(Trim(termo))), noticias);
  }

  /**
   * Only the trimmed term, up to letter case, matters: two terms that agree once
   * trimmed and lowercased give the same list.
   */
  lemma MesmaChaveMesmoResultado(noticias: seq<Noticia>, t1: string, t2: string)
    requires ToLower(Trim(t1)) == ToLower(Trim(t2))
    ensures FiltrarNoticias(noticias, t1) == FiltrarNoticias(noticias, t2)
  {
    TrimToLowerCommute(t1);
    TrimToLowerCommute(t2);
    assert |Trim(t1)| == |Trim(t2)|;
    FilterAgree(n => Menciona(n, Chave(t1)), n => Menciona(n, Chave(t2)), noticias);
  }

  /** Typing the term in another letter case does not change the result. */
  lemma CaixaIrrelevante(noticias: seq<Noticia>, t1: string, t2: string)
    requires ToLower(t1) == ToLower(t2)
    ensures FiltrarNoticias(noticias, t1) == FiltrarNoticias(noticias, t2)
  {
    TrimToLowerCommute(t1);
    TrimToLowerCommute(t2);
    MesmaChaveMesmoResultado(noticias, t1, t2);
  }

  /** Whitespace typed before or after the term does not change the result. */
  lemma EspacosIrrelevantes(noticias: seq<Noticia>, antes: string, termo: string, depois: string)
    requires AllWhitespace(antes) && AllWhitespace(depois)
    ensures FiltrarNoticias(noticias, antes + termo + depois) == FiltrarNoticias(noticias, termo)
  {
    TrimIgnoresPadding(antes, termo, depois);
    MesmaChaveMesmoResultado(noticias, antes + termo + depois, termo);
  }

  /** The state of the search screen. */
  datatype TelaPesquisa = TelaPesquisa(
    termoPesquisa: string,
    noticias: seq<Noticia>,
    noticiasFiltradas: seq<Noticia>,
    carregando: bool)

  /** What the screen shows is the filter of what it loaded by what was typed. */
  ghost predicate Sincronizada(tela: TelaPesquisa)
  {
    tela.noticiasFiltradas == FiltrarNoticias(tela.noticias, tela.termoPesquisa)
  }

  /** The screen as it mounts: empty term, nothing loaded yet, loading. */
  function TelaInicial(): (tela: TelaPesquisa)
    ensures Sincronizada(tela) && tela.carregando
    ensures tela.termoPesquisa == [] && tela.noticias == [] && tela.noticiasFiltradas == []
  {
    TelaPesquisa("", [], [], true)
  }

  /**
   * `buscarNoticias` once its request has settled: a list the backend returned
   * replaces the loaded articles (None stands for a failed request, which keeps
   * them); loading ends either way and the filter effect runs again.
   */
  function BuscarNoticias(tela: TelaPesquisa, resposta: Option<seq<Noticia>>): (r: TelaPesquisa)
    ensures Sincronizada(r) && !r.carregando
    ensures r.termoPesquisa == tela.termoPesquisa
    ensures r.noticias == (if resposta.Some? then resposta.value else tela.noticias)
  {
    var noticias := if resposta.Some? then resposta.value else tela.noticias;
    TelaPesquisa(tela.termoPesquisa, noticias, FiltrarNoticias(noticias, tela.termoPesquisa), false)
  }

  /** Typing into the search field; the filter effect runs again. */
  function DefinirTermo(tela: TelaPesquisa, termo: string): (r: TelaPesquisa)
    ensures Sincronizada(r)
    ensures r.termoPesquisa == termo && r.noticias == tela.noticias && r.carregando == tela.carregando
  {
    tela.(termoPesquisa := termo, noticiasFiltradas := FiltrarNoticias(tela.noticias, termo))
  }

  /** `limparPesquisa`: the term becomes empty, so the screen shows every loaded article again. */
  function LimparPesquisa(tela: TelaPesquisa): (r: TelaPesquisa)
    ensures r.termoPesquisa == [] && r.noticias == tela.noticias && r.carregando == tela.carregando
    ensures r.noticiasFiltradas == tela.noticias
  {
    DefinirTermo(tela, "")
  }
}
