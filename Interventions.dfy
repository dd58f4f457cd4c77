/**
  The guided interventions (`components/Interventions.tsx`): the breathing exercise, which extracts
  numbered instructions from the generated text and steps through them on a timer, and the
  mindfulness session, which shows the generated text one paragraph per line.

  The intervention generator (`getIntervention`) and the 5-second timer are collaborators: what a
  request returns, and whether a scheduled tick fires before the exercise is left, are parameters.
*/
module Interventions {
  import opened Wrappers
  import opened Text

  // ---------------------------------------------------------------------------------------------
  // Text cleaning and instruction extraction
  // ---------------------------------------------------------------------------------------------

  /** The markdown characters removed before anything is shown. */
  const Marks: set<char> := {'*', '#'}

  /** A line with every `*` and `#` removed, then trimmed. */
  function CleanLine(line: string): string {
    Trim(RemoveChars(line, Marks))
  }

  /** A cleaned line holds no markdown character. */
  lemma CleanLineHasNoMarks(line: string)
    ensures '*' !in CleanLine(line) && '#' !in CleanLine(line)
  {
    var s := RemoveChars(line, Marks);
    assert '*' !in multiset(s) && '#' !in multiset(s);
  }

  /** The filter: not empty, and starting with a digit. */
  predicate IsInstruction(text: string) {
    text != [] && IsDigit(text[0])
  }

  /** The `map` step: every line cleaned. */
  function CleanLines(lines: seq<string>): (r: seq<string>)
    ensures |r| == |lines| && forall i :: 0 <= i < |lines| ==> r[i] == CleanLine(lines[i])
  {
    seq(|lines|, i requires 0 <= i < |lines| => CleanLine(lines[i]))
  }

  /** The `filter` step: the texts that are instructions, in order. */
  function Instructions(texts: seq<string>): (r: seq<string>)
    ensures |r| <= |texts|
    ensures forall i :: 0 <= i < |r| ==> IsInstruction(r[i])
  {
    if texts == [] then []
    else (if IsInstruction(texts[0]) then [texts[0]] else []) + Instructions(texts[1..])
  }

  /** The instructions of the generated text: its `'\n'`-separated lines, cleaned and filtered. */
  function ParseInstructions(content: string): seq<string> {
    Instructions(CleanLines(Split(content, '\n')))
  }

  /** The filter keeps exactly the instructions, and nothing else. */
  lemma {:induction false} InstructionsKept(texts: seq<string>, x: string)
    ensures x in Instructions(texts) <==> x in texts && IsInstruction(x)
  {
    if texts != [] {
      InstructionsKept(texts[1..], x);
      assert texts == [texts[0]] + texts[1..];
    }
  }

  /**
    An instruction is exactly the cleaned text of some line when that text starts with a digit,
    and it holds no markdown character.
  */
  lemma InstructionsAreCleanedLines(lines: seq<string>, x: string)
    ensures x in Instructions(CleanLines(lines)) <==>
      IsInstruction(x) && exists j :: 0 <= j < |lines| && CleanLine(lines[j]) == x
    ensures x in Instructions(CleanLines(lines)) ==> '*' !in x && '#' !in x
  {
    var cs := CleanLines(lines);
    InstructionsKept(cs, x);
    if x in cs {
      var j :| 0 <= j < |cs| && cs[j] == x;
      CleanLineHasNoMarks(lines[j]);
    }
  }

  // ---------------------------------------------------------------------------------------------
  // The breathing exercise
  // ---------------------------------------------------------------------------------------------

  const BreatheInKey := "interventions_breathing_in"
  const BreatheOutKey := "interventions_breathing_out"
  const CompleteKey := "interventions_breathing_complete"
  const StartingText := "Starting..."
  const LoadingText := "Loading..."

  /** The label on the breathing circle: breathe in on even steps, out on odd ones. */
  function BreathLabel(step: nat, t: string -> string): (r: string)
    ensures step % 2 == 0 ==> r == t(BreatheInKey)
    ensures step % 2 == 1 ==> r == t(BreatheOutKey)
  {
    if step % 2 == 0 then t(BreatheInKey) else t(BreatheOutKey)
  }

  /** Consecutive steps alternate between breathing in and out. */
  lemma LabelsAlternate(step: nat, t: string -> string)
    ensures BreathLabel(step + 2, t) == BreathLabel(step, t)
    ensures step % 2 == 0 ==> BreathLabel(step + 1, t) == t(BreatheOutKey)
    ensures step % 2 == 1 ==> BreathLabel(step + 1, t) == t(BreatheInKey)
  {
  }

  datatype Panel = CompletePanel(message: string) | InstructionPanel(text: string)

  /** What the exercise shows. */
  datatype BreathingView =
    | Placeholder(text: string)
    | FallbackCard(text: string)
    | RawContent(text: string)
    | Guided(cue: string, panel: Panel)

  /**
    The breathing exercise's render: without instructions the cleaned content is shown in a card
    (or a loading text when nothing is left of it, or the raw, empty, content); with instructions
    the circle's cue alternates with the step and the panel shows the current instruction, or
    the completion message.
  */
  function ViewOf(content: string, instructions: seq<string>, step: nat, isComplete: bool, t: string -> string): (v: BreathingView)
    ensures v.Guided? <==> |instructions| > 0
    ensures v.FallbackCard? ==> v.text == CleanLine(content) && v.text != []
    ensures v.Guided? ==> v.cue == BreathLabel(step, t)
    ensures v.Guided? && isComplete ==> v.panel == CompletePanel(t(CompleteKey))
    ensures v.Guided? && !isComplete && step < |instructions| && instructions[step] != [] ==>
      v.panel == InstructionPanel(instructions[step])
    ensures v.Guided? && !isComplete && (step >= |instructions| || instructions[step] == []) ==>
      v.panel == InstructionPanel(StartingText)
  {
    if |instructions| == 0 && content != [] then
      var cleanContent := CleanLine(content);
      if cleanContent == [] then Placeholder(LoadingText) else FallbackCard(cleanContent)
    else if |instructions| == 0 then RawContent(content)
    else
      var panel :=
        if isComplete then CompletePanel(t(CompleteKey))
        else if step < |instructions| && instructions[step] != [] then InstructionPanel(instructions[step])
        else InstructionPanel(StartingText);
      Guided(BreathLabel(step, t), panel)
  }

  /**
    The exercise's state: the step counter and the completion flag, over the instructions parsed
    from the content it was given.
  */
  class BreathingExercise {
    const content: string
    const instructions: seq<string>
    var step: nat
    var isComplete: bool

    /** The step never passes the number of instructions, and completion means every step was shown. */
    ghost predicate Valid()
      reads this
    {
      step <= |instructions| && (isComplete ==> step == |instructions|)
    }

    constructor(content: string)
      ensures this.content == content && instructions == ParseInstructions(content)
      ensures step == 0 && !isComplete && Valid()
    {
      this.content := content;
      instructions := ParseInstructions(content);
      step := 0;
      isComplete := false;
    }

    /**
      One run of the step effect. Without instructions it does nothing. Before the last step it
      schedules a tick, which advances the step by one when it fires. At the end it completes.
    */
    method RunEffect(tickFires: bool)
      requires Valid()
      modifies this
      ensures Valid()
      ensures |instructions| == 0 ==> step == old(step) && isComplete == old(isComplete)
      ensures |instructions| > 0 && old(step) < |instructions| ==>
        step == old(step) + (if tickFires then 1 else 0) && isComplete == old(isComplete)
      ensures |instructions| > 0 && old(step) == |instructions| ==> step == old(step) && isComplete
    {
      if |instructions| == 0 {
        return;
      }
      if step < |instructions| {
        if tickFires {
          step := step + 1;
        }
      } else {
        isComplete := true;
      }
    }

    /** The fallback card's Complete button, shown only when no instruction was found. */
    method CompleteFallback()
      requires Valid() && |instructions| == 0
      modifies this
      ensures isComplete && step == old(step) && Valid()
    {
      isComplete := true;
    }

    function View(t: string -> string): BreathingView
      reads this
    {
      ViewOf(content, instructions, step, isComplete, t)
    }
  }

  /**
    While the exercise runs, the panel shows the current instruction itself; "Starting..." appears
    only in the one render between the last step and completion.
  */
  lemma RunningShowsInstruction(content: string, step: nat, isComplete: bool, t: string -> string)
    requires var instructions := ParseInstructions(content);
      |instructions| > 0 && !isComplete && step <= |instructions|
    ensures var instructions := ParseInstructions(content);
      var v := ViewOf(content, instructions, step, isComplete, t);
      && (step < |instructions| ==> v.panel == InstructionPanel(instructions[step]) && IsDigit(instructions[step][0]))
      && (v.panel == InstructionPanel(StartingText) <==> step == |instructions|)
  {
    var instructions := ParseInstructions(content);
    if step < |instructions| {
      assert IsInstruction(instructions[step]);
      assert instructions[step] != StartingText by {
        assert StartingText[0] == 'S';
      }
    }
  }

  // ---------------------------------------------------------------------------------------------
  // The mindfulness session
  // ---------------------------------------------------------------------------------------------

  /** `formatMindfulnessContent`: one entry per line, the cleaned text, or nothing when it is empty. */
  function Paragraphs(lines: seq<string>): (r: seq<Option<string>>)
    ensures |r| == |lines|
    ensures forall i :: 0 <= i < |r| ==> (r[i].Some? <==> CleanLine(lines[i]) != [])
  {
    seq(|lines|, i requires 0 <= i < |lines| =>
      var cleaned := CleanLine(lines[i]);
      if cleaned == [] then None else Some(cleaned))
  }

  function FormatMindfulnessContent(text: string): seq<Option<string>> {
    Paragraphs(Split(text, '\n'))
  }

  /** A paragraph shown is never blank and holds no markdown character. */
  lemma ParagraphsAreClean(lines: seq<string>, i: nat)
    requires i < |lines|
    ensures var p := Paragraphs(lines)[i];
      p.Some? ==> p.value == CleanLine(lines[i]) && !IsBlank(p.value) && '*' !in p.value && '#' !in p.value
  {
    CleanLineHasNoMarks(lines[i]);
    var p := Paragraphs(lines)[i];
    if p.Some? {
      assert !IsSpace(p.value[0]);
    }
  }

  /** The breathing instructions are the paragraphs a mindfulness session would show that start with a digit. */
  lemma InstructionsAreDigitParagraphs(lines: seq<string>, x: string)
    ensures x in Instructions(CleanLines(lines)) <==>
      IsInstruction(x) && exists j :: 0 <= j < |lines| && Paragraphs(lines)[j] == Some(x)
  {
    InstructionsAreCleanedLines(lines, x);
    if IsInstruction(x) && exists j :: 0 <= j < |lines| && CleanLine(lines[j]) == x {
      var j :| 0 <= j < |lines| && CleanLine(lines[j]) == x;
      assert Paragraphs(lines)[j] == Some(x);
    }
    if exists j :: 0 <= j < |lines| && Paragraphs(lines)[j] == Some(x) {
      var j :| 0 <= j < |lines| && Paragraphs(lines)[j] == Some(x);
      assert CleanLine(lines[j]) == x;
    }
  }

  // ---------------------------------------------------------------------------------------------
  // The page
  // ---------------------------------------------------------------------------------------------

  datatype InterventionType = Breathing | Mindfulness

  datatype Screen =
    | Menu
    | Generating(kind: InterventionType)
    | BreathingScreen(content: string)
    | MindfulnessScreen(paragraphs: seq<Option<string>>)

  class InterventionsPage {
    var active: Option<InterventionType>
    var content: string
    var isLoading: bool
    /** The `getIntervention` requests, in order. */
    var requested: seq<InterventionType>

    constructor()
      ensures active.None? && content == "" && !isLoading && requested == []
    {
      active, content, isLoading, requested := None, "", false, [];
    }

    /**
      `fetchContent`: the session opens at once with the generator requested; when it answers the
      content is replaced and loading ends. There is no error handler, so a failed request
      (`reply.None?`) leaves the session loading.
    */
    method FetchContent(kind: InterventionType, reply: Option<string>)
      modifies this
      ensures active == Some(kind) && requested == old(requested) + [kind]
      ensures reply.Some? ==> content == reply.value && !isLoading
      ensures reply.None? ==> content == old(content) && isLoading
    {
      isLoading := true;
      active := Some(kind);
      requested := requested + [kind];
      if reply.None? {
        return;
      }
      content := reply.value;
      isLoading := false;
    }

    /** The back button and the mindfulness session's Complete Session button. */
    method Close()
      modifies this
      ensures active.None? && content == old(content) && isLoading == old(isLoading) && requested == old(requested)
    {
      active := None;
    }

    function Screen(): (s: Screen)
      reads this
      ensures active.None? <==> s == Menu
      ensures s.MindfulnessScreen? ==> s.paragraphs == FormatMindfulnessContent(content)
    {
      if active.None? then Menu
      else if isLoading then Generating(active.value)
      else if active.value == Breathing then BreathingScreen(content)
      else MindfulnessScreen(FormatMindfulnessContent(content))
    }
  }
}
