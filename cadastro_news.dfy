/** The admin "add article" form: its data, the simulated image picker and the save validation. */
module CadastroNews {
  import opened Options
  import opened Text
  import opened Validation

  /** The form record; `image` is null until an image is picked. */
  datatype FormData = FormData(
    title: string,
    image: Option<string>,
    description: string,
    author: string,
    category: string)

  /** An `Alert.alert(title, message)` dialog. */
  datatype AlertBox = AlertBox(title: string, message: string)

  /** The URL the simulated image picker always returns. */
  const MockImage: string := "https://images.unsplash.com/photo-1504711434969-e33886168f5c?w=300&h=200&fit=crop"

  const SavedMessage: string := "Notícia salva com sucesso!"

  /** The error text this form shows for each rule. */
  function Message(rule: Rule): string
  {
    match rule
    case TitleRequired => "O título da notícia é obrigatório"
    case DescriptionRequired => "A descrição da notícia é obrigatória"
    case AuthorRequired => "O autor da notícia é obrigatório"
    case CategoryRequired => "A categoria da notícia é obrigatória"
  }

  /** The fields the save rules look at; the image is not one of them. */
  function Checked(f: FormData): Fields
  {
    Fields(f.title, f.description, f.author, f.category)
  }

  /** Distinct rules have distinct messages, so the alert tells which rule failed. */
  lemma MessagesDistinct(r1: Rule, r2: Rule)
    requires Message(r1) == Message(r2)
    ensures r1 == r2
  {
    match r1
    case TitleRequired =>
      assert Message(r1)[2] == 't';
    case DescriptionRequired =>
      assert Message(r1)[2] == 'd';
    case AuthorRequired =>
      assert Message(r1)[2] == 'a';
    case CategoryRequired =>
      assert Message(r1)[2] == 'c';
  }

  /** Picking an image, or clearing it, never changes whether the form can be saved. */
  lemma ImageNeverBlocks(f: FormData, image: Option<string>)
    ensures FirstFailure(Checked(f.(image := image))) == FirstFailure(Checked(f))
    ensures FirstFailure(Checked(f.(image := None))).None? <==> FirstFailure(Checked(f)).None?
  {
  }

  /**
   * The alert a save shows for `f`: "Sucesso" with the saved message exactly when
   * no rule fails, otherwise "Erro" with the message of the first failing rule.
   */
  ghost predicate IsSaveAlert(alert: AlertBox, f: Fields)
  {
    (alert.title == "Sucesso" <==> forall rule :: !Fails(rule, f))
    && (alert.title == "Sucesso" ==> alert.message == SavedMessage)
    && (alert.title != "Sucesso" ==> alert.title == "Erro")
    && (alert.title == "Erro" ==> exists rule :: IsFirstFailure(rule, f) && alert.message == Message(rule))
  }

  /** The state of the add-article screen. */
  class AddNewsScreen {
    var formData: FormData
    var imagePreview: Option<string>

    /** The screen as it mounts: every text field empty and no image. */
    constructor ()
      ensures formData == FormData("", None, "", "", "") && imagePreview == None
    {
      formData := FormData("", None, "", "", "");
      imagePreview := None;
    }

    /** `handleSelectImage`: the preview and the form's image both become the picked URL; nothing else changes. */
    method HandleSelectImage()
      modifies this
      ensures imagePreview == Some(MockImage)
      ensures formData.image == Some(MockImage)
      ensures formData.title == old(formData.title) && formData.description == old(formData.description)
      ensures formData.author == old(formData.author) && formData.category == old(formData.category)
    {
      var mockImage := MockImage;
      imagePreview := Some(mockImage);
      formData := formData.(image := Some(mockImage));
    }

    /**
     * `handleSave`: the success alert when every rule passes, otherwise the error
     * alert naming the first failing rule.
     */
    method HandleSave() returns (alert: AlertBox)
      ensures IsSaveAlert(alert, Checked(formData))
    {
      var fields := Checked(formData);
      FirstFailureIsFirst(fields);
      if Blank(formData.title) {
        alert := AlertBox("Erro", Message(TitleRequired));
      } else if Blank(formData.description) {
        alert := AlertBox("Erro", Message(DescriptionRequired));
      } else if Blank(formData.author) {
        alert := AlertBox("Erro", Message(AuthorRequired));
      } else if formData.category == [] {
        alert := AlertBox("Erro", Message(CategoryRequired));
      } else {
        alert := AlertBox("Sucesso", SavedMessage);
      }
    }

    /** `handleQuickSave`: the same outcome as `handleSave`. */
    method HandleQuickSave() returns (alert: AlertBox)
      ensures IsSaveAlert(alert, Checked(formData))
    {
      alert := HandleSave();
    }
  }
}
