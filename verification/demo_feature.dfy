/**
 * The demo widget's generation state machine (`DemoFeature`): four pieces of
 * component state, a fixed table of tone tabs, a constant map from tone id to
 * a canned paragraph, and the handlers that update the state.
 *
 * Generation happens in two steps. `handleGenerate` sets the busy flag and
 * schedules a timer; the timer's callback later writes the paragraph and
 * clears the flag. The callback closes over the `toneSelected` of the render
 * in which the click happened, so it writes the paragraph of the tone current
 * at click time, whatever tab is selected when it fires. Here the first step
 * returns that captured tone and the second step takes it.
 */
module DemoFeature {
  import opened JsString

  datatype Option<T> = None | Some(value: T)

  /** One tab of the tone selector: its tone id and the label it shows. */
  datatype ToneTab = ToneTab(id: string, title: string)

  /** The tone tabs, in display order. */
  const Tabs: seq<ToneTab> := [
    ToneTab("activist", "Activist"),
    ToneTab("scientific", "Scientific"),
    ToneTab("political", "Political"),
    ToneTab("inspirational", "Inspirational")
  ]

  /** The tone selected when the widget first renders. */
  const InitialTone := "activist"

  /** The keys of the `outputs` map: the tones that have a paragraph. */
  const ToneIds: set<string> := {"activist", "scientific", "political", "inspirational"}

  /** The `outputs` object: the canned paragraph shown for each tone id.
      Each text is written as a concatenation of short pieces, which keeps
      the verifier's reasoning about it cheap; it reads as one paragraph. */
  function Outputs(): (m: map<string, string>)
    ensures m.Keys == ToneIds
    ensures forall id | id in m :: m[id] != ""
  {
    map[
      "activist" :=
        "The " + "unprecedented " + "loss of " + "biodiversity " + "in our " + "region " + "isn't "
        + "just a " + "statistic\U{2014}it's " + "a call " + "to " + "action. " + "Every " + "day we "
        + "wait, " + "more " + "species " + "face " + "extinction " + "and " + "more " + "ecosystems "
        + "collapse. " + "Join " + "our " + "movement " + "to " + "demand " + "immediate " + "policy "
        + "changes " + "that " + "protect " + "our " + "natural " + "heritage " + "before " + "it's "
        + "too " + "late.",
      "scientific" :=
        "Analysis " + "of " + "biodiversity " + "metrics " + "across " + "the " + "region " + "reveals "
        + "a " + "significant " + "decline " + "of 37% " + "in " + "native " + "species " + "abundance "
        + "over " + "the " + "past " + "decade. " + "This " + "data " + "correlates " + "strongly "
        + "with " + "increased " + "industrial " + "activity " + "(p<0.001), " + "suggesting " + "urgent "
        + "conservation " + "interventions " + "are " + "required " + "to " + "maintain " + "ecosystem "
        + "stability.",
      "political" :=
        "Our " + "administration " + "recognizes " + "that " + "environmental " + "protection " + "and "
        + "economic " + "growth " + "can " + "coexist. " + "The " + "proposed " + "Biodiversity "
        + "Protection " + "Act " + "balances " + "the " + "needs " + "of " + "industry " + "stakeholders "
        + "while " + "ensuring " + "sustainable " + "management " + "of our " + "natural " + "resources "
        + "for " + "future " + "generations.",
      "inspirational" :=
        "Imagine " + "a world " + "where " + "our " + "children " + "can " + "experience " + "the "
        + "same " + "natural " + "wonders " + "we " + "cherished " + "growing " + "up. " + "Together, "
        + "we can " + "create " + "this " + "reality. " + "Every " + "conservation " + "action, " + "no "
        + "matter " + "how " + "small, " + "contributes " + "to a " + "magnificent " + "tapestry " + "of "
        + "renewal " + "and " + "hope " + "for our " + "planet."
    ]
  }

  /** The tabs and the `outputs` map name the same tones, and the initial
      tone is one of them. */
  lemma TabsMatchOutputs()
    ensures forall t | 0 <= t < |Tabs| :: Tabs[t].id in ToneIds
    ensures forall id | id in ToneIds :: exists t | 0 <= t < |Tabs| :: Tabs[t].id == id
    ensures InitialTone in ToneIds
  {
    forall id | id in ToneIds ensures exists t | 0 <= t < |Tabs| :: Tabs[t].id == id {
      if id == "activist" { assert Tabs[0].id == id; }
      else if id == "scientific" { assert Tabs[1].id == id; }
      else if id == "political" { assert Tabs[2].id == id; }
      else { assert Tabs[3].id == id; }
    }
  }

  /** The widget's state: the textarea, the selected tab, the busy flag and
      the generated paragraph, with the constant `outputs` map the timer's
      callback reads, fixed when the widget is created. */
  class Demo {
    var inputText: string
    var toneSelected: string
    var isGenerating: bool
    var outputText: string
    const outputs: map<string, string>

    /** The `outputs` map has a non-empty paragraph for every tone, the
        selected tone is one of them, and the output is either still empty
        or one of the paragraphs. */
    ghost predicate Valid()
      reads this
    {
      && outputs.Keys == ToneIds
      && (forall id | id in outputs :: outputs[id] != "")
      && toneSelected in ToneIds
      && (outputText == "" || outputText in outputs.Values)
    }

    /** The first render: empty input, "activist" selected, idle, no output.
        `table` is the component's `outputs` object (`Outputs()` in the
        widget as shipped): a non-empty paragraph for every tone. */
    constructor (table: map<string, string>)
      requires table.Keys == ToneIds
      requires forall id | id in table :: table[id] != ""
      ensures Valid()
      ensures outputs == table
      ensures inputText == "" && toneSelected == InitialTone
      ensures !isGenerating && outputText == ""
    {
      inputText := "";
      toneSelected := InitialTone;
      isGenerating := false;
      outputText := "";
      outputs := table;
    }

    /** The generate button is clickable: the input is not blank and no
        generation is running. */
    predicate ButtonEnabled()
      reads this
    {
      !IsBlank(inputText) && !isGenerating
    }

    /** The textarea's change handler: only the input changes; any output
        already shown stays. */
    method EditInput(text: string)
      requires Valid()
      modifies this
      ensures Valid()
      ensures inputText == text
      ensures toneSelected == old(toneSelected) && isGenerating == old(isGenerating)
      ensures outputText == old(outputText)
    {
      inputText := text;
    }

    /** A tab's click handler: selects that tab's tone and changes nothing
        else. Tabs stay clickable while a generation is running. */
    method SelectTone(tab: nat)
      requires Valid()
      requires tab < |Tabs|
      modifies this
      ensures Valid()
      ensures toneSelected == Tabs[tab].id
      ensures inputText == old(inputText) && isGenerating == old(isGenerating)
      ensures outputText == old(outputText)
    {
      TabsMatchOutputs();
      toneSelected := Tabs[tab].id;
    }

    /** `handleGenerate` up to scheduling the timer. Blank input returns early
        and changes nothing; otherwise the busy flag is set and the timer is
        scheduled with the tone selected now. Nothing else changes. */
    method StartGenerate() returns (timer: Option<string>)
      requires Valid()
      modifies this
      ensures Valid()
      ensures IsBlank(old(inputText)) ==> timer == None && isGenerating == old(isGenerating)
      ensures !IsBlank(old(inputText)) ==> timer == Some(old(toneSelected)) && isGenerating
      ensures timer.Some? ==> timer.value in ToneIds
      ensures inputText == old(inputText) && toneSelected == old(toneSelected)
      ensures outputText == old(outputText)
    {
      if IsBlank(inputText) {
        return None;
      }
      isGenerating := true;
      timer := Some(toneSelected);
    }

    /** The timer's callback: shows the paragraph of the tone captured when
        generation started and clears the busy flag. The output is then
        non-empty. */
    method CompleteGenerate(captured: string)
      requires Valid()
      requires captured in ToneIds
      modifies this
      ensures Valid()
      ensures outputText == outputs[captured] && outputText != ""
      ensures !isGenerating
      ensures inputText == old(inputText) && toneSelected == old(toneSelected)
    {
      outputText := outputs[captured];
      isGenerating := false;
    }

    /** A click on the generate button: a disabled button delivers no click,
        so nothing happens unless the button is enabled, and in particular no
        second generation starts while one is running. */
    method PressGenerate() returns (timer: Option<string>)
      requires Valid()
      modifies this
      ensures Valid()
      ensures old(ButtonEnabled()) ==> timer == Some(old(toneSelected)) && isGenerating
      ensures !old(ButtonEnabled()) ==> timer == None && isGenerating == old(isGenerating)
      ensures old(isGenerating) ==> timer == None
      ensures inputText == old(inputText) && toneSelected == old(toneSelected)
      ensures outputText == old(outputText)
    {
      if ButtonEnabled() {
        timer := StartGenerate();
      } else {
        timer := None;
      }
    }
  }

  /** The button is enabled exactly when the input holds a character that is
      not whitespace and no generation is running. */
  lemma ButtonEnabledIff(demo: Demo)
    ensures demo.ButtonEnabled() <==>
      !demo.isGenerating && exists i | 0 <= i < |demo.inputText| :: !IsWhitespace(demo.inputText[i])
  {
    BlankIffAllWhitespace(demo.inputText);
  }

  /** A whole interaction: type `text`, pick the tab of tone `first`, click
      generate, switch to the tab of tone `later` while the timer runs, then
      let it fire. The paragraph shown is the one for `first`, while the
      selected tone is `later`. */
  method GenerateThenSwitchTab(text: string, first: string, later: string)
    returns (output: string, selected: string, busy: bool)
    requires !IsBlank(text)
    requires first in ToneIds && later in ToneIds
    ensures output == Outputs()[first]
    ensures selected == later
    ensures !busy
  {
    TabsMatchOutputs();
    var f :| 0 <= f < |Tabs| && Tabs[f].id == first;
    var l :| 0 <= l < |Tabs| && Tabs[l].id == later;
    var demo := new Demo(Outputs());
    demo.EditInput(text);
    demo.SelectTone(f);
    assert demo.ButtonEnabled();
    var timer := demo.PressGenerate();
    assert timer == Some(first);
    demo.SelectTone(l);
    demo.CompleteGenerate(timer.value);
    assert demo.outputText == demo.outputs[first];
    output, selected, busy := demo.outputText, demo.toneSelected, demo.isGenerating;
  }
}
