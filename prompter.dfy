/**
 * The prompter the generator is handed: it turns one prompt, or an array of
 * prompts, into a record of answers keyed by each prompt's name.
 *
 * The editor's input box and quick pick are not modelled; what the user did
 * with each of them is a supplied `Response`.  The source stores each
 * handler's promise without awaiting it; here an entry is the value the
 * handler settles to for the supplied response.
 */
module Prompter {
  import opened Wrappers
  import opened Strings

  /** One requested interaction, discriminated by its `type` tag. */
  datatype Prompt =
    | Confirm(name: string, message: string)
    | Input(name: string, message: string)
    | List(name: string, choices: seq<string>)
      /** a prompt whose `type` is none of 'confirm', 'input' or 'list' */
    | Unsupported(name: string)

  /** What `prompt` is called with: a lone prompt or an array of prompts. */
  datatype Batch = Single(prompt: Prompt) | Many(prompts: seq<Prompt>)

  /** What the user did with the box or menu shown for one prompt. */
  datatype Response =
    | Cancelled            // the input box or quick pick was dismissed
    | Typed(text: string)  // text accepted in an input box (possibly empty)
    | Chose(index: nat)    // the item at this position of a quick pick

  /** The value stored under a prompt's name. */
  datatype Answer = Flag(flag: Option<bool>) | Text(text: Option<string>)

  /** One entry of the quick pick shown for a list prompt; `caption` is its `label` (a word Dafny reserves). */
  datatype PickItem = PickItem(caption: string)

  /**
   * The text pre-filled in the input box of a confirm prompt: the value the
   * box gives back when the user accepts it untouched.
   */
  const ConfirmDefault: string := "no"

  /** The value an input box gives back: `undefined` when dismissed. */
  function Entered(r: Response): Option<string>
  {
    match r
    case Typed(text) => Some(text)
    case _ => None
  }

  /** The item a quick pick gives back: `undefined` when dismissed. */
  function Picked(r: Response): Option<nat>
  {
    match r
    case Chose(index) => Some(index)
    case _ => None
  }

  /**
   * The editor only answers a confirm or input prompt from an input box and a
   * list prompt with one of the items it offered.
   */
  predicate Fits(p: Prompt, r: Response)
  {
    match p
    case List(_, choices) => r.Cancelled? || (r.Chose? && r.index < |choices|)
    case Unsupported(_) => true
    case _ => !r.Chose?
  }

  predicate AllFit(prompts: seq<Prompt>, responses: seq<Response>)
  {
    |prompts| == |responses| &&
    forall i :: 0 <= i < |prompts| ==> Fits(prompts[i], responses[i])
  }

  function LowerChar(c: char): char
  {
    if 'A' <= c <= 'Z' then (c as int + 32) as char else c
  }

  /** `toLowerCase`, on the ASCII letters. */
  function ToLower(s: string): string
  {
    seq(|s|, i requires 0 <= i < |s| => LowerChar(s[i]))
  }

  /**
   * A confirm prompt: no answer for a dismissed or empty box, `true` for a
   * value starting with a 'y' in either case, `false` for anything else.
   */
  function HandleConfirm(value: Option<string>): (r: Option<bool>)
    ensures r.None? <==> value.None? || value == Some("")
    ensures r == Some(true) <==> value.Some? && |value.value| > 0 && value.value[0] in {'y', 'Y'}
    ensures r == Some(false) <==> value.Some? && |value.value| > 0 && value.value[0] !in {'y', 'Y'}
  {
    match value
    case None => None
    case Some(text) =>
      if text == "" then None
      else
        assert StartsWith(ToLower(text), "y") <==> ToLower(text)[0] == 'y';
        if StartsWith(ToLower(text), "y") then Some(true)
      else Some(false)
  }

  /** An input prompt: the entered text as it is, even when empty. */
  function HandleInput(value: Option<string>): (r: Option<string>)
    ensures r.None? <==> value.None?
    ensures value.Some? ==> r.Some? && r.value == value.value
  {
    value
  }

  /** The quick pick items for a list prompt: one per choice, labelled by it. */
  function PickItems(choices: seq<string>): (items: seq<PickItem>)
    ensures |items| == |choices|
    ensures forall i :: 0 <= i < |choices| ==> items[i].caption == choices[i]
  {
    if choices == [] then []
    else [PickItem(choices[0])] + PickItems(choices[1..])
  }

  /** A list prompt: the label of the chosen item, or no answer. */
  function HandleList(choices: seq<string>, chosen: Option<nat>): (r: Option<string>)
    requires chosen.Some? ==> chosen.value < |choices|
    ensures r.None? <==> chosen.None?
    ensures r.Some? ==> r.value in choices && r.value == choices[chosen.value]
  {
    var items := PickItems(choices);
    match chosen
    case None => None
    case Some(i) => Some(items[i].caption)
  }

  /** Whether a prompt is one of the three handled kinds. */
  predicate Handled(p: Prompt)
  {
    !p.Unsupported?
  }

  /** The answer a handled prompt settles to for the user's response. */
  function AnswerFor(p: Prompt, r: Response): Answer
    requires Fits(p, r) && Handled(p)
  {
    match p
    case Confirm(_, _) => Flag(HandleConfirm(Entered(r)))
    case Input(_, _) => Text(HandleInput(Entered(r)))
    case List(_, choices) => Text(HandleList(choices, Picked(r)))
  }

  /** One step of the loop: a handled prompt writes its own key and no other. */
  function Store(answers: map<string, Answer>, p: Prompt, r: Response): map<string, Answer>
    requires Fits(p, r)
  {
    if Handled(p) then answers[p.name := AnswerFor(p, r)] else answers
  }

  /** The answer record after the prompts have been handled in order. */
  function AnswersOf(prompts: seq<Prompt>, responses: seq<Response>): map<string, Answer>
    requires AllFit(prompts, responses)
    decreases |prompts|
  {
    if prompts == [] then map[]
    else
      var n := |prompts| - 1;
      Store(AnswersOf(prompts[..n], responses[..n]), prompts[n], responses[n])
  }

  /** A lone prompt becomes a batch of one; an array is taken as given. */
  function Normalize(input: Batch): (prompts: seq<Prompt>)
    ensures input.Single? ==> prompts == [input.prompt]
    ensures input.Many? ==> prompts == input.prompts
  {
    match input
    case Single(p) => [p]
    case Many(ps) => ps
  }

  /** The names of the handled prompts among `prompts`. */
  function HandledNames(prompts: seq<Prompt>): set<string>
  {
    set i | 0 <= i < |prompts| && Handled(prompts[i]) :: prompts[i].name
  }

  /**
   * `Prompter.prompt`: fills the answer record in place, one prompt at a
   * time, in the order of the batch.
   */
  method Ask(input: Batch, responses: seq<Response>) returns (answers: map<string, Answer>)
    requires AllFit(Normalize(input), responses)
    ensures answers == AnswersOf(Normalize(input), responses)
    ensures answers.Keys == HandledNames(Normalize(input))
  {
    var prompts := Normalize(input);
    answers := map[];
    var i := 0;
    while i < |prompts|
      invariant 0 <= i <= |prompts|
      invariant answers == AnswersOf(prompts[..i], responses[..i])
    {
      var response := responses[i];
      assert prompts[..i + 1][..i] == prompts[..i];
      assert responses[..i + 1][..i] == responses[..i];
      match prompts[i] {
        case Confirm(name, _) =>
          answers := answers[name := Flag(HandleConfirm(Entered(response)))];
        case Input(name, _) =>
          answers := answers[name := Text(HandleInput(Entered(response)))];
        case List(name, choices) =>
          answers := answers[name := Text(HandleList(choices, Picked(response)))];
        case Unsupported(_) =>
      }
      i := i + 1;
    }
    assert prompts[..i] == prompts;
    assert responses[..i] == responses;
    AnswerKeys(prompts, responses);
  }

  /** The keys are exactly the names of the handled prompts. */
  lemma {:induction false} AnswerKeys(prompts: seq<Prompt>, responses: seq<Response>)
    requires AllFit(prompts, responses)
    ensures AnswersOf(prompts, responses).Keys == HandledNames(prompts)
    decreases |prompts|
  {
    if prompts != [] {
      var n := |prompts| - 1;
      AnswerKeys(prompts[..n], responses[..n]);
      assert forall i :: 0 <= i < n ==> prompts[..n][i] == prompts[i];
      assert HandledNames(prompts) ==
        HandledNames(prompts[..n]) + (if Handled(prompts[n]) then {prompts[n].name} else {});
    }
  }

  /**
   * The answer under a name is that of the last handled prompt carrying the
   * name: a later prompt with the same name overwrites an earlier one.
   */
  lemma {:induction false} LastWins(prompts: seq<Prompt>, responses: seq<Response>, i: nat)
    requires AllFit(prompts, responses)
    requires i < |prompts| && Handled(prompts[i])
    requires forall j :: i < j < |prompts| && Handled(prompts[j]) ==> prompts[j].name != prompts[i].name
    ensures prompts[i].name in AnswersOf(prompts, responses)
    ensures AnswersOf(prompts, responses)[prompts[i].name] == AnswerFor(prompts[i], responses[i])
    decreases |prompts|
  {
    var n := |prompts| - 1;
    if i < n {
      assert forall j :: i < j < n ==> prompts[..n][j] == prompts[j];
      LastWins(prompts[..n], responses[..n], i);
    }
  }

  /**
   * With distinct names and only handled prompts, the record has one key per
   * prompt, each holding that prompt's own answer.
   */
  lemma {:induction false} DistinctNamesGiveOneKeyEach(prompts: seq<Prompt>, responses: seq<Response>)
    requires AllFit(prompts, responses)
    requires forall i :: 0 <= i < |prompts| ==> Handled(prompts[i])
    requires forall i, j :: 0 <= i < j < |prompts| ==> prompts[i].name != prompts[j].name
    ensures |AnswersOf(prompts, responses)| == |prompts|
    ensures forall i :: 0 <= i < |prompts| ==>
      prompts[i].name in AnswersOf(prompts, responses) &&
      AnswersOf(prompts, responses)[prompts[i].name] == AnswerFor(prompts[i], responses[i])
    decreases |prompts|
  {
    if prompts != [] {
      var n := |prompts| - 1;
      DistinctNamesGiveOneKeyEach(prompts[..n], responses[..n]);
      AnswerKeys(prompts[..n], responses[..n]);
      assert prompts[n].name !in HandledNames(prompts[..n]);
      forall i | 0 <= i < |prompts|
        ensures prompts[i].name in AnswersOf(prompts, responses)
        ensures AnswersOf(prompts, responses)[prompts[i].name] == AnswerFor(prompts[i], responses[i])
      {
        LastWins(prompts, responses, i);
      }
    }
  }

  /** A prompt of any other type leaves the record as it was. */
  lemma UnsupportedAddsNothing(prompts: seq<Prompt>, responses: seq<Response>, name: string, r: Response)
    requires AllFit(prompts, responses)
    ensures AllFit(prompts + [Unsupported(name)], responses + [r])
    ensures AnswersOf(prompts + [Unsupported(name)], responses + [r]) == AnswersOf(prompts, responses)
  {
    assert (prompts + [Unsupported(name)])[..|prompts|] == prompts;
    assert (responses + [r])[..|prompts|] == responses;
  }

  /** Typed values for a confirm prompt, including the untouched default. */
  lemma ConfirmExamples()
    ensures HandleConfirm(Some("y")) == Some(true)
    ensures HandleConfirm(Some("Yes")) == Some(true)
    ensures HandleConfirm(Some("yep")) == Some(true)
    ensures HandleConfirm(Some(ConfirmDefault)) == Some(false)
    ensures HandleConfirm(Some("n")) == Some(false)
    ensures HandleConfirm(Some("")) == None
    ensures HandleConfirm(None) == None
  {
  }

  /** An empty input-box value is an answer for an input prompt but not for a confirm prompt. */
  lemma EmptyTextDiffers()
    ensures HandleInput(Some("")) == Some("")
    ensures HandleConfirm(Some("")) == None
  {
  }

  /** A lone list prompt with choices a, b, c: choosing b, or dismissing the menu. */
  lemma ListExample(name: string)
    ensures AllFit(Normalize(Single(List(name, ["a", "b", "c"]))), [Chose(1)])
    ensures AnswersOf(Normalize(Single(List(name, ["a", "b", "c"]))), [Chose(1)]) == map[name := Text(Some("b"))]
    ensures AnswersOf(Normalize(Single(List(name, ["a", "b", "c"]))), [Cancelled]) == map[name := Text(None)]
  {
    var prompts := Normalize(Single(List(name, ["a", "b", "c"])));
    assert prompts[..0] == [];
  }
}
