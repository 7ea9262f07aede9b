/** The favourites screen: a list of saved articles from which items can be removed. */
module Favoritos {
  import opened Seqs

  datatype FavoriteItem = FavoriteItem(id: int, image: string, title: string)

  /** The list the screen starts with. */
  const FavoritosIniciais: seq<FavoriteItem> := [
    FavoriteItem(1, "https://images.unsplash.com/photo-1434494878577-86c23bcb06b9?w=400&h=200&fit=crop",
                 "Garmin watches exploding prices and popularity")
  ]

  /**
   * `favorito.filter(item => item.id !== id)`: every item with that id is gone and
   * every other item is kept, in its order.
   */
  function RemoverFavorito(favoritos: seq<FavoriteItem>, id: int): (r: seq<FavoriteItem>)
    ensures forall x :: x in r <==> x in favoritos && x.id != id
    ensures IsSubsequence(r, favoritos)
    ensures |r| == |favoritos| - Count((x: FavoriteItem) => x.id == id, favoritos)
  {
    CountComplement((x: FavoriteItem) => x.id == id, (x: FavoriteItem) => x.id != id, favoritos);
    Filter((x: FavoriteItem) => x.id != id, favoritos)
  }

  /** Removing an id no item has leaves the list as it was. */
  lemma RemoverIdAusente(favoritos: seq<FavoriteItem>, id: int)
    requires forall x :: x in favoritos ==> x.id != id
    ensures RemoverFavorito(favoritos, id) == favoritos
  {
    FilterAll((x: FavoriteItem) => x.id != id, favoritos);
  }

  /** Removing the same id twice is removing it once. */
  lemma RemoverIdempotente(favoritos: seq<FavoriteItem>, id: int)
    ensures RemoverFavorito(RemoverFavorito(favoritos, id), id) == RemoverFavorito(favoritos, id)
  {
    FilterIdempotent((x: FavoriteItem) => x.id != id, favoritos);
  }

  /** The state of the favourites screen. */
  class TelaFavoritos {
    var favorito: seq<FavoriteItem>

    constructor ()
      ensures favorito == FavoritosIniciais
    {
      favorito := FavoritosIniciais;
    }

    /** `removeFavorite`: the list becomes the list without the items carrying `id`. */
    method RemoveFavorite(id: int)
      modifies this
      ensures favorito == RemoverFavorito(old(favorito), id)
    {
      favorito := RemoverFavorito(favorito, id);
    }

    /** The empty state is shown exactly when there is no favourite left. */
    function MostraEstadoVazio(): (r: bool)
      reads this
      ensures r <==> forall x :: x !in favorito
    {
      assert favorito != [] ==> favorito[0] in favorito;
      |favorito| == 0
    }
  }

  /** After removing `id`, the empty state shows exactly when every favourite carried that id. */
  lemma VazioAposRemover(favoritos: seq<FavoriteItem>, id: int)
    ensures |RemoverFavorito(favoritos, id)| == 0 <==> forall x :: x in favoritos ==> x.id == id
  {
    FilterEmptyIff((x: FavoriteItem) => x.id != id, favoritos);
  }
}
