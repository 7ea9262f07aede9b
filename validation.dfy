/**
 * The ordered chain of "required field" checks that both article forms run
 * before saving: title, description, author, then category. The first rule that
 * fails is the one reported.
 */
module Validation {
  import opened Options
  import opened Text

  /** The rules, one per required field. */
  datatype Rule = TitleRequired | DescriptionRequired | AuthorRequired | CategoryRequired

  /** The position of a rule in the chain. */
  function Rank(rule: Rule): nat
  {
    match rule
    case TitleRequired => 0
    case DescriptionRequired => 1
    case AuthorRequired => 2
    case CategoryRequired => 3
  }

  /** The field values the rules look at. */
  datatype Fields = Fields(title: string, description: string, author: string, category: string)

  /** Whether `rule` on its own rejects `f`. Text fields are trimmed first; the category is not. */
  predicate Fails(rule: Rule, f: Fields)
  {
    match rule
    case TitleRequired => Blank(f.title)
    case DescriptionRequired => Blank(f.description)
    case AuthorRequired => Blank(f.author)
    case CategoryRequired => f.category == []
  }

  /** `rule` fails and every rule ahead of it in the chain passes. */
  ghost predicate IsFirstFailure(rule: Rule, f: Fields)
  {
    Fails(rule, f) && forall earlier :: Rank(earlier) < Rank(rule) ==> !Fails(earlier, f)
  }

  /**
   * The rule the chain reports: none when every rule passes, otherwise the failing
   * rule that comes first in the chain.
   */
  function FirstFailure(f: Fields): Option<Rule>
  {
    if Blank(f.title) then Some(TitleRequired)
    else if Blank(f.description) then Some(DescriptionRequired)
    else if Blank(f.author) then Some(AuthorRequired)
    else if f.category == [] then Some(CategoryRequired)
    else None
  }

  /**
   * The chain reports nothing exactly when no rule fails; otherwise it reports a
   * failing rule, and every rule ahead of it in the chain passes.
   */
  lemma FirstFailureIsFirst(f: Fields)
    ensures FirstFailure(f).None? <==> forall rule :: !Fails(rule, f)
    ensures FirstFailure(f).Some? ==> IsFirstFailure(FirstFailure(f).value, f)
  {
    var r := FirstFailure(f);
    var bound := if r.Some? then Rank(r.value) else 4;
    forall rule | Rank(rule) < bound
      ensures !Fails(rule, f)
    {
      match rule
      case TitleRequired =>
      case DescriptionRequired =>
      case AuthorRequired =>
      case CategoryRequired =>
    }
    if forall rule :: !Fails(rule, f) {
      assert !Fails(TitleRequired, f) && !Fails(DescriptionRequired, f);
      assert !Fails(AuthorRequired, f) && !Fails(CategoryRequired, f);
    }
  }

  /**
   * A form passes exactly when title, description and author each hold a
   * character that is not whitespace and a category has been chosen.
   */
  lemma AcceptedIff(f: Fields)
    ensures FirstFailure(f).None? <==>
      !AllWhitespace(f.title) && !AllWhitespace(f.description) && !AllWhitespace(f.author) && f.category != []
  {
    BlankIff(f.title);
    BlankIff(f.description);
    BlankIff(f.author);
  }

  /** A blank title is reported whatever the other fields hold. */
  lemma BlankTitleWins(f: Fields)
    requires AllWhitespace(f.title)
    ensures FirstFailure(f) == Some(TitleRequired)
  {
    BlankIff(f.title);
  }

  /** A category made only of spaces is accepted: the category is checked for emptiness, not trimmed. */
  lemma CategoryNotTrimmed(f: Fields)
    requires FirstFailure(f.(category := "x")).None?
    ensures FirstFailure(f.(category := " ")).None?
    ensures FirstFailure(f.(category := "")) == Some(CategoryRequired)
  {
  }
}
