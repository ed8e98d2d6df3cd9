/** Prompt construction of the ARC benchmark loader: the enumerated choice
    block, the rendering of one question, the few-shot exemplars and the
    chat-template framing that together give one prompt per question. */
module ArcPrompt {
  import opened Wrappers
  import opened Strings

  /** The `choices` record of a question: dataset labels and choice texts,
      two parallel lists (only the first label is ever looked at). */
  datatype Choices = Choices(labels: seq<string>, texts: seq<string>)

  /** One dataset record. */
  datatype Example = Example(question: string, choices: Choices, answerKey: string)

  /** The labelling convention, decided once per choice set from its first label. */
  datatype Convention = Alphabetic | Numeric

  /** A chat template: a fixed system text, and user and assistant slots that
      put their one argument between a prefix and a suffix. */
  datatype ChatTemplate = ChatTemplate(
    system: string,
    userPrefix: string, userSuffix: string,
    assistantPrefix: string, assistantSuffix: string)

  /** Loader settings: the shot count (Python's `None` is written 0), the
      chain-of-thought switch and the chat template. */
  datatype PromptConfig = PromptConfig(numShot: int, cot: bool, template: ChatTemplate)

  const Instruction: string := "Please choose the correct answer from the following options:\n"
  const AnswerTag: string := "Answer: "
  const Separator: string := "\n\n"

  /** Letters are `chr(65 + i)`; a `char` here cannot be a surrogate code
      point, so the alphabetic convention renders at most this many choices. */
  const MaxAlphabeticChoices: nat := 0xD800 - 65

  function ConventionOf(labels: seq<string>): Convention
    requires |labels| > 0
  {
    if labels[0] == "A" then Alphabetic else Numeric
  }

  /** What the choice renderer needs: a first label to inspect, and letters
      for every position in the alphabetic convention. */
  predicate Renderable(c: Choices) {
    && |c.labels| > 0
    && (c.labels[0] == "A" ==> |c.texts| <= MaxAlphabeticChoices)
  }

  function PositionLabel(conv: Convention, i: nat): string
    requires conv == Alphabetic ==> i < MaxAlphabeticChoices
  {
    match conv
    case Alphabetic => [(65 + i) as char]
    case Numeric => NatToDecimal(i)
  }

  function ChoiceLine(conv: Convention, i: nat, text: string): string
    requires conv == Alphabetic ==> i < MaxAlphabeticChoices
  {
    "(" + PositionLabel(conv, i) + ") " + text
  }

  /** The lines for `texts`, the first of which sits at position `start`. */
  function RenderLines(conv: Convention, texts: seq<string>, start: nat): (lines: seq<string>)
    requires conv == Alphabetic ==> start + |texts| <= MaxAlphabeticChoices
    ensures |lines| == |texts|
    ensures forall i :: 0 <= i < |texts| ==> lines[i] == ChoiceLine(conv, start + i, texts[i])
    decreases |texts|
  {
    if |texts| == 0 then []
    else [ChoiceLine(conv, start, texts[0])] + RenderLines(conv, texts[1..], start + 1)
  }

  /** The rendered choice lines, one per choice text, in the original order.
      The i-th is labelled by position alone: `(A)`, `(B)`, ... when the
      first dataset label is "A", `(0)`, `(1)`, ... otherwise. */
  function ChoiceLines(c: Choices): (lines: seq<string>)
    requires Renderable(c)
    ensures |lines| == |c.texts|
    ensures c.labels[0] == "A" ==>
      forall i :: 0 <= i < |c.texts| ==> lines[i] == "(" + [(65 + i) as char] + ") " + c.texts[i]
    ensures c.labels[0] != "A" ==>
      forall i :: 0 <= i < |c.texts| ==> lines[i] == "(" + NatToDecimal(i) + ") " + c.texts[i]
  {
    RenderLines(ConventionOf(c.labels), c.texts, 0)
  }

  predicate NoNewlines(texts: seq<string>) {
    forall i :: 0 <= i < |texts| ==> '\n' !in texts[i]
  }

  /** `get_choices`: a leading newline, then the choice lines joined by
      newlines. When no choice text holds a newline, splitting the block
      after its first character gives back exactly the choice lines. */
  function GetChoices(c: Choices): (r: string)
    requires Renderable(c)
    ensures |r| >= 1 && r[0] == '\n'
    ensures |c.texts| == 0 ==> r == "\n"
    ensures |c.texts| > 0 && NoNewlines(c.texts) ==> Split(r[1..], '\n') == ChoiceLines(c)
  {
    var lines := ChoiceLines(c);
    var block := "\n" + Join("\n", lines);
    assert |c.texts| > 0 && NoNewlines(c.texts) ==> Split(block[1..], '\n') == lines by {
      if |c.texts| > 0 && NoNewlines(c.texts) {
        forall i | 0 <= i < |lines|
          ensures '\n' !in lines[i]
        {
          assert lines[i] == ChoiceLine(ConventionOf(c.labels), i, c.texts[i]);
        }
        SplitJoin(lines, '\n');
        assert block[1..] == Join("\n", lines);
      }
    }
    block
  }

  /** The choice block depends on the first dataset label and the texts only;
      the other labels are never read. */
  lemma ChoicesIgnoreLaterLabels(c: Choices, d: Choices)
    requires Renderable(c) && Renderable(d)
    requires c.labels[0] == d.labels[0] && c.texts == d.texts
    ensures GetChoices(c) == GetChoices(d)
  {
  }

  /** Every position gets a different label, in either convention. */
  lemma PositionLabelsDistinct(conv: Convention, i: nat, j: nat)
    requires conv == Alphabetic ==> i < MaxAlphabeticChoices && j < MaxAlphabeticChoices
    requires i != j
    ensures PositionLabel(conv, i) != PositionLabel(conv, j)
  {
    match conv
    case Alphabetic =>
      assert PositionLabel(conv, i)[0] != PositionLabel(conv, j)[0];
    case Numeric =>
      DecimalInjective(i, j);
  }

  function AnswerLine(ex: Example, withAnswer: bool): string {
    if withAnswer then AnswerTag + ex.answerKey else AnswerTag
  }

  /** `build_example_prompt`: the question, the instruction sentence, the
      choice block and an answer line that carries the answer key only when
      `withAnswer` holds. The fields can be read back at fixed positions. */
  function BuildExamplePrompt(ex: Example, withAnswer: bool): (r: string)
    requires Renderable(ex.choices)
    ensures var head := ex.question + Instruction;
            var tail := "\n" + AnswerLine(ex, withAnswer);
            && |r| == |head| + |GetChoices(ex.choices)| + |tail|
            && r[..|ex.question|] == ex.question
            && r[|ex.question|..|head|] == Instruction
            && r[|head|..|r| - |tail|] == GetChoices(ex.choices)
            && r[|r| - |tail|..] == tail
  {
    ex.question + Instruction + GetChoices(ex.choices) + "\n" + AnswerLine(ex, withAnswer)
  }

  /** The answered rendering is the unanswered one with the key appended, so
      the target question is an exemplar whose answer is left to the model. */
  lemma AnsweredExtendsUnanswered(ex: Example)
    requires Renderable(ex.choices)
    ensures BuildExamplePrompt(ex, true) == BuildExamplePrompt(ex, false) + ex.answerKey
  {
  }

  /** Python's `s[:n]`: the first `n` elements, or all but the last `-n`
      when `n` is negative, clamped to the bounds of `s`. */
  function PyPrefix<T>(s: seq<T>, n: int): (r: seq<T>)
    ensures |r| <= |s| && r == s[..|r|]
    ensures n >= 0 ==> |r| == if n <= |s| then n else |s|
    ensures n < 0 ==> |r| == if |s| + n >= 0 then |s| + n else 0
  {
    if n >= 0 then (if n <= |s| then s[..n] else s)
    else if |s| + n >= 0 then s[..|s| + n]
    else []
  }

  /** The rows of the few-shot slice: none when the shot count is falsy,
      otherwise `pool[:numShot]`. */
  function Exemplars(pool: seq<Example>, numShot: int): seq<Example> {
    if numShot == 0 then [] else PyPrefix(pool, numShot)
  }

  /** Every row of the few-shot slice has a choice set that can be rendered. */
  predicate ExemplarsRenderable(pool: seq<Example>, numShot: int) {
    var shots := Exemplars(pool, numShot);
    forall i :: 0 <= i < |shots| ==> Renderable(shots[i].choices)
  }

  /** The exemplar fragments of the few-shot branch: the first rows of the
      pool, in pool order, each rendered with its answer. */
  function FewShotFragments(pool: seq<Example>, numShot: int): (r: seq<string>)
    requires ExemplarsRenderable(pool, numShot)
    ensures |r| == |Exemplars(pool, numShot)| <= |pool|
    ensures forall j :: 0 <= j < |r| ==> Renderable(pool[j].choices) && r[j] == BuildExamplePrompt(pool[j], true)
  {
    var shots := Exemplars(pool, numShot);
    assert forall j :: 0 <= j < |shots| ==> shots[j] == pool[j];
    seq(|shots|, i requires 0 <= i < |shots| => BuildExamplePrompt(shots[i], true))
  }

  function UserSlot(t: ChatTemplate, input: string): string {
    t.userPrefix + input + t.userSuffix
  }

  function AssistantSlot(t: ChatTemplate, output: string): string {
    t.assistantPrefix + output + t.assistantSuffix
  }

  /** System text, user slot and assistant slot, in that order. */
  function Wrap(t: ChatTemplate, input: string, seed: string): string {
    t.system + UserSlot(t, input) + AssistantSlot(t, seed)
  }

  /** Recovers the user content of a prompt framed by `t` with assistant seed
      `seed`, or None when the text is not framed that way. */
  function Unwrap(t: ChatTemplate, seed: string, prompt: string): (r: Option<string>)
    ensures r.Some? ==> Wrap(t, r.value, seed) == prompt
  {
    var head := t.system + t.userPrefix;
    var tail := t.userSuffix + AssistantSlot(t, seed);
    if |head| + |tail| <= |prompt| && prompt[..|head|] == head && prompt[|prompt| - |tail|..] == tail then
      var input := prompt[|head|..|prompt| - |tail|];
      assert prompt == head + input + tail;
      Some(input)
    else None
  }

  /** Framing loses nothing: the user content is read back from the prompt. */
  lemma UnwrapWrap(t: ChatTemplate, input: string, seed: string)
    ensures Unwrap(t, seed, Wrap(t, input, seed)) == Some(input)
  {
    var prompt := Wrap(t, input, seed);
    var head := t.system + t.userPrefix;
    var tail := t.userSuffix + AssistantSlot(t, seed);
    assert prompt == head + input + tail;
    assert prompt[..|head|] == head;
    assert prompt[|prompt| - |tail|..] == tail;
    assert prompt[|head|..|prompt| - |tail|] == input;
  }

  /** The user content `build_prompt` builds around one target rendering: the
      target alone without exemplars, else the exemplar block, one blank
      line, and the target. */
  function ExpectedUser(fragments: seq<string>, target: string): string {
    if |fragments| == 0 then target else Join(Separator, fragments) + Separator + target
  }

  predicate AllRenderable(data: seq<Example>) {
    forall i :: 0 <= i < |data| ==> Renderable(data[i].choices)
  }

  /** The unanswered rendering of every question, in order. */
  function Targets(data: seq<Example>): (r: seq<string>)
    requires AllRenderable(data)
    ensures |r| == |data|
    ensures forall i :: 0 <= i < |data| ==> r[i] == BuildExamplePrompt(data[i], false)
  {
    seq(|data|, i requires 0 <= i < |data| => BuildExamplePrompt(data[i], false))
  }

  /** The few-shot branch outside chain-of-thought mode: each target joined
      after the exemplar fragments, with an empty assistant seed. */
  function FewShotPrompts(t: ChatTemplate, fewShots: seq<string>, targets: seq<string>): (r: seq<string>)
    ensures |r| == |targets|
    ensures forall i :: 0 <= i < |targets| ==> r[i] == Wrap(t, ExpectedUser(fewShots, targets[i]), "")
  {
    var prompts := seq(|targets|, i requires 0 <= i < |targets| =>
      Wrap(t, "" + Join(Separator, fewShots + [targets[i]]), ""));
    assert forall i :: 0 <= i < |targets| ==>
      prompts[i] == Wrap(t, ExpectedUser(fewShots, targets[i]), "") by {
      forall i | 0 <= i < |targets|
        ensures prompts[i] == Wrap(t, ExpectedUser(fewShots, targets[i]), "")
      {
        if |fewShots| == 0 {
          assert fewShots + [targets[i]] == [targets[i]];
        } else {
          JoinSnoc(Separator, fewShots, targets[i]);
        }
        assert "" + Join(Separator, fewShots + [targets[i]]) == ExpectedUser(fewShots, targets[i]);
      }
    }
    prompts
  }

  /** The zero-shot branch: each target framed on its own, with an empty
      assistant seed. */
  function ZeroShotPromptList(t: ChatTemplate, targets: seq<string>): (r: seq<string>)
    ensures |r| == |targets|
    ensures forall i :: 0 <= i < |targets| ==> r[i] == Wrap(t, ExpectedUser([], targets[i]), "")
  {
    seq(|targets|, i requires 0 <= i < |targets| => Wrap(t, "" + targets[i], ""))
  }

  /** The exception `build_prompt` raises in chain-of-thought mode with a
      truthy shot count: the slice of the dataset is a column batch,
      iterating it yields column names, and indexing a name by 'question'
      is a TypeError. */
  datatype PromptError = CotOverColumnBatch

  /** `build_prompt`. A falsy shot count gives one zero-shot prompt per
      question. Otherwise the slice is a column batch, whose length (its
      column count) is never 0, so the few-shot branch runs: it raises in
      chain-of-thought mode, and else gives one prompt per question, the i-th
      for the i-th, framing the exemplar fragments and the unanswered target
      with an empty assistant seed. */
  function BuildPrompt(cfg: PromptConfig, pool: seq<Example>, data: seq<Example>): (r: Result<seq<string>, PromptError>)
    requires cfg.numShot == 0 || !cfg.cot ==> AllRenderable(data)
    requires !cfg.cot ==> ExemplarsRenderable(pool, cfg.numShot)
    ensures r.Failure? <==> cfg.cot && cfg.numShot != 0
    ensures r.Success? ==> |r.value| == |data|
    ensures r.Success? ==> forall i :: 0 <= i < |data| ==>
      r.value[i] == Wrap(cfg.template,
                         ExpectedUser(FewShotFragments(pool, cfg.numShot), BuildExamplePrompt(data[i], false)),
                         "")
  {
    var t := cfg.template;
    if cfg.numShot == 0 then
      assert |FewShotFragments(pool, 0)| == 0;
      Success(ZeroShotPromptList(t, Targets(data)))
    else if cfg.cot then
      Failure(CotOverColumnBatch)
    else
      Success(FewShotPrompts(t, FewShotFragments(pool, cfg.numShot), Targets(data)))
  }

  /** With a falsy shot count (in either mode), or an empty pool outside
      chain-of-thought mode, each prompt frames the bare unanswered question
      with an empty assistant seed. */
  lemma ZeroShotPrompts(cfg: PromptConfig, pool: seq<Example>, data: seq<Example>, i: nat)
    requires AllRenderable(data)
    requires cfg.numShot == 0 || (!cfg.cot && |pool| == 0)
    requires i < |data|
    ensures BuildPrompt(cfg, pool, data).Success?
    ensures BuildPrompt(cfg, pool, data).value[i] == Wrap(cfg.template, BuildExamplePrompt(data[i], false), "")
  {
  }

  /** Outside chain-of-thought mode with a positive shot count, the user
      content is the first min(numShot, |pool|) pool questions rendered with
      their answers, then the unanswered target, separated by blank lines. */
  lemma FewShotUserContent(cfg: PromptConfig, pool: seq<Example>, data: seq<Example>, i: nat)
    requires AllRenderable(data) && ExemplarsRenderable(pool, cfg.numShot)
    requires !cfg.cot && cfg.numShot > 0 && |pool| > 0
    requires i < |data|
    ensures var k := if cfg.numShot <= |pool| then cfg.numShot else |pool|;
            var frags := FewShotFragments(pool, cfg.numShot);
            && |frags| == k
            && (forall j :: 0 <= j < k ==> frags[j] == BuildExamplePrompt(pool[j], true))
            && BuildPrompt(cfg, pool, data).Success?
            && BuildPrompt(cfg, pool, data).value[i]
               == Wrap(cfg.template, Join(Separator, frags) + Separator + BuildExamplePrompt(data[i], false), "")
  {
  }

  /** Chain-of-thought mode with a truthy shot count raises for every pool,
      the empty one included, and every list of questions. */
  lemma CotWithShotsRaises(cfg: PromptConfig, pool: seq<Example>, data: seq<Example>)
    requires cfg.cot && cfg.numShot != 0
    ensures BuildPrompt(cfg, pool, data) == Failure(CotOverColumnBatch)
  {
  }

  /** A non-zero shot count over an empty pool outside chain-of-thought mode
      takes the few-shot branch, and joining the lone target gives the same
      prompt as the zero-shot branch. */
  lemma EmptyPoolColumnBatch(cfg: PromptConfig, data: seq<Example>, i: nat)
    requires AllRenderable(data)
    requires !cfg.cot && cfg.numShot != 0 && i < |data|
    ensures var target := BuildExamplePrompt(data[i], false);
            && BuildPrompt(cfg, [], data).Success?
            && BuildPrompt(cfg, [], data).value[i] == Wrap(cfg.template, "" + Join(Separator, [] + [target]), "")
            && BuildPrompt(cfg, [], data).value[i] == Wrap(cfg.template, target, "")
  {
    var target := BuildExamplePrompt(data[i], false);
    assert [] + [target] == [target];
  }

  /** The target of the worked instance below: "Q?" with choices A/x and B/y. */
  function ScenarioTarget(): Example {
    Example("Q?", Choices(["A", "B"], ["x", "y"]), "A")
  }

  lemma ScenarioTargetRendering()
    ensures BuildExamplePrompt(ScenarioTarget(), false) == "Q?" + Instruction + "\n(A) x\n(B) y" + "\n" + AnswerTag
  {
    var lines := ChoiceLines(ScenarioTarget().choices);
    assert (65 + 0) as char == 'A' && (65 + 1) as char == 'B';
    assert lines[0] == "(A) x" && lines[1] == "(B) y";
    assert Join("\n", lines) == "(A) x\n(B) y" by {
      assert lines[1..] == ["(B) y"];
    }
  }

  /** A worked instance: shot count 1 over a pool of two, outside
      chain-of-thought mode, for the target above. */
  lemma ScenarioOneShot(t: ChatTemplate, e1: Example, e2: Example)
    requires Renderable(e1.choices) && Renderable(e2.choices)
    ensures BuildPrompt(PromptConfig(1, false, t), [e1, e2], [ScenarioTarget()])
            == Success([Wrap(t, BuildExamplePrompt(e1, true) + Separator
                                + ("Q?" + Instruction + "\n(A) x\n(B) y" + "\n" + AnswerTag), "")])
  {
    var cfg := PromptConfig(1, false, t);
    ScenarioTargetRendering();
    var frags := FewShotFragments([e1, e2], 1);
    assert frags == [BuildExamplePrompt(e1, true)];
    assert Join(Separator, frags) == BuildExamplePrompt(e1, true);
    FewShotUserContent(cfg, [e1, e2], [ScenarioTarget()], 0);
    var r := BuildPrompt(cfg, [e1, e2], [ScenarioTarget()]).value;
    assert r == [r[0]];
  }
}
