/** The admin article list: deleting an article after confirming in a dialog. */
module Admin {
  import opened Options
  import opened Seqs

  /** An article as the admin list holds it. */
  datatype Noticia = Noticia(id: int, imagem: string, titulo: string, autores: string)

  /** The list the screen starts with. */
  const ListaInicial: seq<Noticia> := [
    Noticia(1, "https://images.unsplash.com/photo-1504711434969-e33886168f5c?w=200&h=150&fit=crop",
            "Tecnologia revoluciona o mercado brasileiro", "João Silva, Maria Santos"),
    Noticia(2, "https://images.unsplash.com/photo-1551288049-bebda4e38f71?w=200&h=150&fit=crop",
            "Economia em crescimento surpreende analistas", "Carlos Oliveira"),
    Noticia(3, "https://images.unsplash.com/photo-1532619675605-1ede6c2ed2b0?w=200&h=150&fit=crop",
            "Sustentabilidade ganha força no agronegócio", "Ana Costa, Pedro Lima"),
    Noticia(4, "https://images.unsplash.com/photo-1434494878577-86c23bcb06b9?w=200&h=150&fit=crop",
            "Garmin watches exploding prices and popularity", "Michael L Hicks")
  ]

  /**
   * `lista.filter(item => item.id !== id)`: the items with that id are gone, every
   * other item is kept, in its order, and the list shrinks by exactly the number
   * of items that had the id.
   */
  function SemId(lista: seq<Noticia>, id: int): (r: seq<Noticia>)
    ensures forall n :: n in r <==> n in lista && n.id != id
    ensures IsSubsequence(r, lista)
    ensures |r| == |lista| - Count((n: Noticia) => n.id == id, lista)
  {
    CountComplement((n: Noticia) => n.id == id, (n: Noticia) => n.id != id, lista);
    Filter((n: Noticia) => n.id != id, lista)
  }

  /** The state of the admin screen. */
  class TelaAdmin {
    var listaNoticias: seq<Noticia>
    var noticiaParaExcluir: Option<Noticia>
    var mostrarAlertaExcluir: bool

    /** The screen as it mounts: the initial list, nothing pending, the dialog hidden. */
    constructor ()
      ensures listaNoticias == ListaInicial && noticiaParaExcluir == None && !mostrarAlertaExcluir
    {
      listaNoticias := ListaInicial;
      noticiaParaExcluir := None;
      mostrarAlertaExcluir := false;
    }

    /** `confirmarExclusao`: remember the item and open the dialog; the list is untouched. */
    method ConfirmarExclusao(item: Noticia)
      modifies this
      ensures noticiaParaExcluir == Some(item) && mostrarAlertaExcluir
      ensures listaNoticias == old(listaNoticias)
    {
      noticiaParaExcluir := Some(item);
      mostrarAlertaExcluir := true;
    }

    /**
     * `excluirNoticia`: with an item pending, every item with its id leaves the
     * list, the dialog closes and nothing is pending any more; with none pending,
     * nothing changes.
     */
    method ExcluirNoticia()
      modifies this
      ensures old(noticiaParaExcluir).Some? ==>
        listaNoticias == SemId(old(listaNoticias), old(noticiaParaExcluir).value.id)
        && !mostrarAlertaExcluir && noticiaParaExcluir == None
      ensures old(noticiaParaExcluir).None? ==>
        listaNoticias == old(listaNoticias) && noticiaParaExcluir == None
        && mostrarAlertaExcluir == old(mostrarAlertaExcluir)
    {
      if noticiaParaExcluir.Some? {
        listaNoticias := SemId(listaNoticias, noticiaParaExcluir.value.id);
        mostrarAlertaExcluir := false;
        noticiaParaExcluir := None;
      }
    }

    /** Cancelling or dismissing the dialog hides it; the list and the pending item stay. */
    method FecharAlerta()
      modifies this
      ensures !mostrarAlertaExcluir
      ensures listaNoticias == old(listaNoticias) && noticiaParaExcluir == old(noticiaParaExcluir)
    {
      mostrarAlertaExcluir := false;
    }
  }

  /** Confirming an item and then deleting removes it, and every other item with its id, from the list. */
  method ConfirmarEExcluir(tela: TelaAdmin, item: Noticia)
    modifies tela
    ensures tela.listaNoticias == SemId(old(tela.listaNoticias), item.id)
    ensures item !in tela.listaNoticias
    ensures !tela.mostrarAlertaExcluir && tela.noticiaParaExcluir == None
  {
    tela.ConfirmarExclusao(item);
    tela.ExcluirNoticia();
  }
}
