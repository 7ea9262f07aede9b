# mobile-news: list and form logic

A model of the parts of the mobile news app that decide something rather than
draw something:

- the search screen, which filters the loaded articles by a trimmed,
  case-insensitive term matched against title, description, author and category;
- the admin "add article" form, with its ordered "first failing rule wins"
  validation and its simulated image picker;
- the admin "edit article" modal, which loads its fields from an article,
  validates them with the same ordered rules, sends a trimmed update and reacts
  to the HTTP status, and asks before discarding changes;
- the admin list's delete flow: a pending item, a confirmation dialog and a
  delete-by-id filter;
- the favourites screen's delete-by-id and its empty state.

Files:

- `options.dfy`: `Option`, and JavaScript's `x || ''` on an optional string.
- `text.dfy`: `trim`, `toLowerCase` and `includes`. The set of whitespace that
  `trim` strips is the ECMAScript WhiteSpace and LineTerminator set. `trim` is
  proved to be the unique way of cutting whitespace from both ends.
- `seqs.dfy`: `filter`, proved to be the unique order-preserving subsequence
  that keeps exactly the passing elements.
- `validation.dfy`: the four required-field rules shared by both article forms.
  The reported rule is the first failing one in the chain.
- `pesquisa.dfy`, `cadastro_news.dfy`, `editar_news.dfy`, `admin.dfy`,
  `favoritos.dfy`: one module per screen.

Pure logic is written as functions and lemmas. The search screen's state is a
datatype, and its handlers are functions that return the new state. The other
screens are classes whose methods carry `modifies` and state the whole new
state. The edit modal's side effects are recorded as an ordered event log:
toasts, the `fechar` and `aoSalvar` callbacks, the PUT request and the cancel
dialog. Device storage is a `map<string, string>`. The backend's answer is an
input to the save operation.

## Model

| member | source | states |
|---|---|---|
| `Text.Includes` | app/pages/pesquisa.tsx:72-75 | `s.includes(t)` holds exactly when `t` occurs at some index of `s` |
| `Text.TrimUnique` | app/pages/pesquisa.tsx:65 | whenever `s` is whitespace, then text that neither starts nor ends with whitespace, then whitespace, `s.trim()` is that text |
| `Text.TrimParts` | app/pages/pesquisa.tsx:65 | `s` is whitespace, then `s.trim()`, then whitespace |
| `Text.TrimEdges` | app/pages/pesquisa.tsx:65 | `s.trim()` neither starts nor ends with whitespace |
| `Text.BlankIff` | app/pages/admin/cadastroNews.tsx:70 | `!s.trim()` holds exactly when every character of `s` is whitespace |
| `Text.TrimIgnoresPadding` | app/pages/pesquisa.tsx:70 | whitespace added on either side does not change `trim` |
| `Text.TrimIdempotent` | app/pages/admin/editarNews.tsx:74-79 | trimming twice is trimming once |
| `Text.TrimToLowerCommute` | app/pages/pesquisa.tsx:70 | lowercasing then trimming equals trimming then lowercasing |
| `Seqs.Filter` | app/pages/pesquisa.tsx:71-76 | the filter keeps exactly the passing elements, as a subsequence of the input, one per passing element |
| `Seqs.FilterUnique` | app/pages/pesquisa.tsx:71 | any subsequence made of passing elements and as long as their count is the filter's result |
| `Seqs.FilterAll` | app/pages/favoritos.tsx:47 | filtering with a test every element passes returns the list unchanged |
| `Seqs.FilterIdempotent` | app/pages/favoritos.tsx:47 | filtering twice with the same test is filtering once |
| `Seqs.FilterAgree` | app/pages/pesquisa.tsx:71-76 | tests that agree on every element give the same result |
| `Seqs.FilterEmptyIff` | app/pages/favoritos.tsx:47 | the result is empty exactly when no element passes |
| `Seqs.CountComplement` | app/pages/admin/admin.tsx:83 | elements passing a test plus elements passing its negation make up the whole list |
| `Validation.FirstFailureIsFirst` | app/pages/admin/cadastroNews.tsx:70-85 | the chain reports nothing exactly when no rule fails; otherwise it reports a failing rule, and every earlier rule in the order title, description, author, category passes |
| `Validation.AcceptedIff` | app/pages/admin/cadastroNews.tsx:70-90 | a form passes exactly when title, description and author each hold a non-whitespace character and the category is non-empty |
| `Validation.BlankTitleWins` | app/pages/admin/cadastroNews.tsx:70-73 | an all-whitespace title is reported whatever the other fields hold |
| `Validation.CategoryNotTrimmed` | app/pages/admin/cadastroNews.tsx:82-85 | a category of one space passes; only the empty category fails |
| `Pesquisa.FiltrarNoticias` | app/pages/pesquisa.tsx:64-79 | a blank term returns the list; otherwise the result is exactly the loaded articles that mention the key in one of the four fields; the result is always a subsequence of the loaded list and no longer |
| `Pesquisa.TermoEmBrancoMostraTudo` | app/pages/pesquisa.tsx:65-68 | an empty or whitespace-only term returns the full list |
| `Pesquisa.FiltroExato` | app/pages/pesquisa.tsx:70-76 | soundness: every returned article mentions the trimmed, lowercased term in one of the four lowercased fields. Completeness: every loaded article that does is returned, as many times as it was loaded |
| `Pesquisa.MesmaChaveMesmoResultado` | app/pages/pesquisa.tsx:65-76 | two terms equal after trimming and lowercasing give the same result |
| `Pesquisa.CaixaIrrelevante` | app/pages/pesquisa.tsx:70 | changing the letter case of the term does not change the result |
| `Pesquisa.EspacosIrrelevantes` | app/pages/pesquisa.tsx:65-70 | leading or trailing whitespace on the term does not change the result |
| `Pesquisa.TelaInicial` | app/pages/pesquisa.tsx:30-33 | the screen mounts with an empty term, nothing loaded and loading on, and the shown list is in step |
| `Pesquisa.BuscarNoticias` | app/pages/pesquisa.tsx:46-62 | a returned list replaces the loaded one, a failed request keeps it; loading ends either way; the term is kept and the shown list is in step |
| `Pesquisa.DefinirTermo` | app/pages/pesquisa.tsx:42-44 | a new term is stored; the loaded list is kept and the shown list is the filter of the loaded list by the new term |
| `Pesquisa.LimparPesquisa` | app/pages/pesquisa.tsx:81-83 | after clearing, the term is empty and the shown list is the full loaded list |
| `CadastroNews.MessagesDistinct` | app/pages/admin/cadastroNews.tsx:70-85 | each rule has its own message, so the alert identifies the failing rule |
| `CadastroNews.ImageNeverBlocks` | app/pages/admin/cadastroNews.tsx:32-38 | the image, null or set, never changes the validation outcome |
| `CadastroNews.AddNewsScreen.constructor` | app/pages/admin/cadastroNews.tsx:41-49 | the form starts with empty text fields, a null image and no preview |
| `CadastroNews.AddNewsScreen.HandleSelectImage` | app/pages/admin/cadastroNews.tsx:60-66 | preview and form image both become the mock URL; title, description, author and category are unchanged |
| `CadastroNews.AddNewsScreen.HandleSave` | app/pages/admin/cadastroNews.tsx:68-91 | "Sucesso" with the saved message exactly when no rule fails; otherwise "Erro" with the message of the first failing rule |
| `CadastroNews.AddNewsScreen.HandleQuickSave` | app/pages/admin/cadastroNews.tsx:104-107 | the same outcome as `HandleSave` |
| `EditarNews.CarregarFormulario` | app/pages/admin/editarNews.tsx:25-34 | a present article fills each field from the article, `''` where the article's field is missing; an absent article leaves the form as it is |
| `EditarNews.ValidarCampos` | app/pages/admin/editarNews.tsx:36-54 | no warning exactly when no rule fails; otherwise the warning of the first failing rule |
| `EditarNews.DadosAparados` | app/pages/admin/editarNews.tsx:73-80 | title, author, description, link and image URL in the payload have no whitespace at either end and are unchanged by trimming again. The category is passed unchanged. For a validated form, title, description and author are non-empty |
| `EditarNews.NoticiaSalva` | app/pages/admin/editarNews.tsx:106-116 | the record handed to `aoSalvar` takes titulo, descricao, categoria, link and imagemURL from the payload and writes the payload's author to `autores`; it keeps the article's id and its original `autor` |
| `EditarNews.ReabrirAposSalvar` | app/pages/admin/editarNews.tsx:25-34 | reopening the modal on the saved record shows the trimmed saved values, except the author: it shows the article's original `autor`, because the new author went to `autores` |
| `EditarNews.ClassificarResposta` | app/pages/admin/editarNews.tsx:91-125 | a session expiry exactly on 401. Success exactly on a 2xx status whose body parses. Any other status fails with the body's non-empty `error` or the status line. A body that does not parse, or a request that threw, fails with the thrown message |
| `EditarNews.DesfechoEfeitos` | app/pages/admin/editarNews.tsx:91-118 | `aoSalvar` is called only on success, only when given, and with the saved record. The modal closes on success and on 401 and stays open on failure. No further request is sent |
| `EditarNews.SemAlteracoesIff` | app/pages/admin/editarNews.tsx:132-138 | no changes exactly when the form equals what loading the article gives, or all `''` with no article; a freshly loaded form has none |
| `EditarNews.ModalEditarNoticia.constructor` | app/pages/admin/editarNews.tsx:15-34 | the modal mounts not loading, with no events and the form loaded from the article |
| `EditarNews.ModalEditarNoticia.ReceberNoticia` | app/pages/admin/editarNews.tsx:25-34 | a new article prop reloads the form; nothing else changes |
| `EditarNews.ModalEditarNoticia.SalvarAlteracoes` | app/pages/admin/editarNews.tsx:56-129 | a failed validation or a missing id gives only its toast, with no request and `carregando` unchanged. Otherwise `carregando` is false at the end. With no token the modal shows the expiry toast and closes. Otherwise one PUT with the token and the trimmed payload is sent, followed by the outcome's events. Only on 401 is the `userToken` key removed |
| `EditarNews.ModalEditarNoticia.HandleCancelar` | app/pages/admin/editarNews.tsx:131-152 | asks for confirmation exactly when there are changes, otherwise closes at once |
| `Admin.SemId` | app/pages/admin/admin.tsx:83 | removes exactly the items with the id. All others are kept in order. The list shrinks by the number of items that had the id |
| `Admin.TelaAdmin.constructor` | app/pages/admin/admin.tsx:38-70 | the initial list, nothing pending, the dialog hidden |
| `Admin.TelaAdmin.ConfirmarExclusao` | app/pages/admin/admin.tsx:76-79 | the item becomes pending and the dialog opens; the list is unchanged |
| `Admin.TelaAdmin.ExcluirNoticia` | app/pages/admin/admin.tsx:81-87 | with an item pending, the list loses every item with its id, the dialog closes and the pending item is cleared; with none pending nothing changes |
| `Admin.TelaAdmin.FecharAlerta` | app/pages/admin/admin.tsx:278 | the dialog hides; list and pending item unchanged (also the cancel button at line 293) |
| `Admin.ConfirmarEExcluir` | app/pages/admin/admin.tsx:76-87 | confirming an item and then deleting removes it from the list and leaves the dialog closed with nothing pending |
| `Favoritos.RemoverFavorito` | app/pages/favoritos.tsx:46-48 | every item with the id is removed. Every other item is kept in order. The list shrinks by the number of items with that id |
| `Favoritos.RemoverIdAusente` | app/pages/favoritos.tsx:47 | removing an id no item has leaves the list unchanged |
| `Favoritos.RemoverIdempotente` | app/pages/favoritos.tsx:47 | removing the same id twice equals removing it once |
| `Favoritos.TelaFavoritos.constructor` | app/pages/favoritos.tsx:36-43 | the screen starts with its one initial favourite |
| `Favoritos.TelaFavoritos.RemoveFavorite` | app/pages/favoritos.tsx:46-48 | the list becomes the list without the items carrying the id |
| `Favoritos.TelaFavoritos.MostraEstadoVazio` | app/pages/favoritos.tsx:184-185 | the empty state is shown exactly when no favourite is left |
| `Favoritos.VazioAposRemover` | app/pages/favoritos.tsx:184 | after a removal the empty state shows exactly when every favourite had that id |

## Left out

- `toLowerCase` is modelled for ASCII letters only. `trim` strips a fixed set of code points. Locale-dependent and non-ASCII case mapping is not modelled.
- Network I/O is not modelled. The fetch in `buscarNoticias` (app/pages/pesquisa.tsx:46-62) becomes an input: the returned list, or none for a failed request. The PUT (app/pages/admin/editarNews.tsx:82-89) becomes an input `Resposta`, and the request is recorded as an event.
- Device storage is a map. Reads and removals never fail, and no write happens concurrently with a save.
- `await` points are not modelled: each handler runs to completion without interleaving. A response arriving after the modal is unmounted is not modelled.
- Toasts and `Alert.alert` keep only their text and status. Layout, themes, icons, navigation (`router.push`/`back`) and JSX rendering are left out.
- `EditarNews.ClassificarResposta`: the thrown value is always an `Error`, so the fallback text "Erro ao atualizar notícia" (app/pages/admin/editarNews.tsx:123) never appears. The body's `error` field is a string or missing; other JSON values in that field, and a body that parses to something other than an object, are not modelled.
- `EditarNews.TemId`: the article id is an integer or missing. A missing id and id 0 both count as no id, as `!noticia?.id` does. Non-numeric ids are not modelled.
- The extra fields a spread copy carries are represented by the fields listed in the `Noticia` datatype of `editar_news.dfy`; a record update keeps every other field, as the spread does.
- `handleCancel` of the add form (app/pages/admin/cadastroNews.tsx:93-102) only shows a dialog and logs, so it is not modelled. The per-field setters wired in the JSX are not modelled as operations. The lemmas hold for every form value they could produce.
- `editarNoticia`, `adicionarNoticia` and `sairSistema` on the admin screen (app/pages/admin/admin.tsx:72-74, 89-100) only log or show a dialog, so they are not modelled.
