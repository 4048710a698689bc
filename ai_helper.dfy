/** `AIHelper.guess_category_openai`: ask a chat model to pick a category, and
    accept its answer only when it names one of the offered categories. The
    model itself is a parameter: any function from the conversation to a reply,
    where a reply may also be an exception. */
module AiHelper {
  import opened Wrappers
  import opened Text

  datatype Message = SystemMessage(content: string) | HumanMessage(content: string)

  /** What one `invoke` of the model produces: an answer, or an exception. */
  datatype Reply = Answer(content: string) | Raised

  /** `self.llm`: absent when no API key is set or the client package is
      missing, otherwise the model as a function of the conversation. */
  type Model = Option<seq<Message> -> Reply>

  const Other := "Other"

  const Instructions := "You are a helpful assistant that classifies merchants into spending categories."

  /** The user prompt: the categories joined by ", ", then the merchant. */
  function Prompt(merchant: string, categories: seq<string>): string {
    "Classify the following merchant into one of these spending categories: " + Join(", ", categories) + ".\n"
    + "Merchant: " + merchant + "\n"
    + "Category:"
  }

  function Conversation(merchant: string, categories: seq<string>): seq<Message> {
    [SystemMessage(Instructions), HumanMessage(Prompt(merchant, categories))]
  }

  /** `guess_category_openai`: "Other" without a model or without categories;
      otherwise the model's stripped answer when it is exactly one of the
      categories, and "Other" for any other answer or an exception. */
  function GuessCategory(llm: Model, merchant: string, categories: seq<string>): (r: string)
    ensures r in categories || r == Other
    ensures llm.None? || categories == [] ==> r == Other
    ensures r != Other ==>
              llm.Some? && llm.value(Conversation(merchant, categories)).Answer?
              && r == Strip(llm.value(Conversation(merchant, categories)).content)
  {
    if llm.None? || categories == [] then Other
    else
      match llm.value(Conversation(merchant, categories))
      case Raised => Other
      case Answer(content) =>
        var category := Strip(content);
        if category !in categories then Other else category
  }

  /** The guess for each merchant among fixed categories, as a function. */
  function Guesser(llm: Model, categories: seq<string>): string -> string {
    merchant => GuessCategory(llm, merchant, categories)
  }

  /** An exception from the model call is caught and yields "Other". */
  lemma RaisedGivesOther(llm: Model, merchant: string, categories: seq<string>)
    requires llm.Some? && llm.value(Conversation(merchant, categories)) == Raised
    ensures GuessCategory(llm, merchant, categories) == Other
  {
  }

  /** An answer is accepted exactly when, stripped of surrounding blanks, it is
      one of the categories as spelled: a stripped answer that is not listed,
      even one differing only in case, gives "Other". */
  lemma AnswerAcceptedIffListed(llm: Model, merchant: string, categories: seq<string>, content: string)
    requires llm.Some? && categories != []
    requires llm.value(Conversation(merchant, categories)) == Answer(content)
    ensures Strip(content) in categories ==> GuessCategory(llm, merchant, categories) == Strip(content)
    ensures Strip(content) !in categories ==> GuessCategory(llm, merchant, categories) == Other
  {
  }

  /** Example: for the categories ["Dining", "Travel"], an answer of " Dining\n"
      is taken as "Dining". */
  lemma PaddedAnswerAccepted(llm: Model, merchant: string, categories: seq<string>)
    requires llm.Some? && categories == ["Dining", "Travel"]
    requires llm.value(Conversation(merchant, categories)) == Answer(" Dining\n")
    ensures GuessCategory(llm, merchant, categories) == "Dining"
  {
    PaddedAnswer(" Dining\n");
    AnswerAcceptedIffListed(llm, merchant, categories, " Dining\n");
  }

  /** Example: for the same categories an answer of "dining" gives "Other". */
  lemma NoCaseFolding(llm: Model, merchant: string, categories: seq<string>)
    requires llm.Some? && categories == ["Dining", "Travel"]
    requires llm.value(Conversation(merchant, categories)) == Answer("dining")
    ensures GuessCategory(llm, merchant, categories) == Other
  {
    StripUnchanged("dining");
    assert "dining"[0] != "Dining"[0] && "dining"[0] != "Travel"[0];
    AnswerAcceptedIffListed(llm, merchant, categories, "dining");
  }

  lemma PaddedAnswer(s: string)
    requires s == " Dining\n"
    ensures Strip(s) == "Dining"
  {
    var w := "Dining";
    assert s == [' '] + w + ['\n'];
    StripPadded(w, ' ', '\n');
  }

  /** One blank on each side of a word is removed by `strip()`. */
  lemma StripPadded(w: string, a: char, b: char)
    requires w != [] && !IsSpace(w[0]) && !IsSpace(w[|w| - 1])
    requires IsSpace(a) && IsSpace(b)
    ensures Strip([a] + w + [b]) == w
  {
    var s := [a] + w + [b];
    assert s[1..] == w + [b];
    assert StripLeft(w + [b]) == w + [b];
    assert (w + [b])[..|w|] == w;
    assert StripRight(w + [b]) == StripRight(w);
    assert StripRight(w) == w;
  }
}
