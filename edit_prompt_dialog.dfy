/**
 * The edit-prompt dialog: a title and system-prompt editor, an "assistant"
 * that fills a fixed Portuguese template from six structured fields (with an
 * optional refinement block on re-generation), a "start over" reset, the
 * loader that copies the edited prompt into the form when the dialog opens,
 * and the version-bump selector with its description.
 */
module EditPrompt {
  import opened Wrappers
  import opened Versioning

  // ---------------------------------------------------------------------------
  // The template
  // ---------------------------------------------------------------------------

  const ForbiddenHeader: string := "Padrões proibidos:\n"
  const Closing: string := "Siga estas diretrizes em todas as suas interações."
  const RefinementHeader: string := "\n\nInstruções adicionais:\n"

  /** The opening sentence: "Você é <name>, <role>." */
  function PersonaLine(agentName: string, agentRole: string): string {
    "Você é " + agentName + ", " + agentRole + "."
  }

  /** The optional forbidden-patterns slot: empty unless patterns were given. */
  function ForbiddenSlot(forbiddenPatterns: string): string {
    if forbiddenPatterns != "" then ForbiddenHeader + forbiddenPatterns else ""
  }

  /**
   * Everything the template writes before the forbidden-patterns slot: the
   * persona, audience, objective and tone lines, each followed by a blank line.
   */
  function Head(agentName: string, agentRole: string, targetAudience: string,
                mainObjective: string, toneOfVoice: string): string
  {
    PersonaLine(agentName, agentRole) + "\n\n"
    + "Público-alvo: " + targetAudience + "\n\n"
    + "Objetivo principal: " + mainObjective + "\n\n"
    + "Tom de voz: " + toneOfVoice + "\n\n"
  }

  /**
   * The text `handleGeneratePrompt` builds before any refinement is appended:
   * the head, the forbidden-patterns slot, a blank line and the closing
   * instruction. It always opens with "Você é <name>, <role>." and always ends
   * with the closing instruction.
   */
  function BaseTemplate(agentName: string, agentRole: string, targetAudience: string,
                        mainObjective: string, toneOfVoice: string, forbiddenPatterns: string): (text: string)
    ensures PersonaLine(agentName, agentRole) <= text
    ensures |Closing| <= |text| && text[|text| - |Closing|..] == Closing
  {
    var persona := PersonaLine(agentName, agentRole);
    var head := Head(agentName, agentRole, targetAudience, mainObjective, toneOfVoice);
    var body := head + ForbiddenSlot(forbiddenPatterns) + "\n\n";
    HeadAfterPersona(agentName, agentRole, targetAudience, mainObjective, toneOfVoice);
    Split(body, Closing);
    Split(persona, head[|persona|..] + ForbiddenSlot(forbiddenPatterns) + "\n\n");
    Split(head, ForbiddenSlot(forbiddenPatterns) + "\n\n");
    body + Closing
  }

  /** Paragraphs separated by one blank line each. */
  function JoinParagraphs(ps: seq<string>): string {
    if |ps| == 0 then ""
    else if |ps| == 1 then ps[0]
    else ps[0] + "\n\n" + JoinParagraphs(ps[1..])
  }

  /** The six paragraphs of the template, in order. */
  function Paragraphs(agentName: string, agentRole: string, targetAudience: string,
                      mainObjective: string, toneOfVoice: string, forbiddenPatterns: string): seq<string>
  {
    [ PersonaLine(agentName, agentRole),
      "Público-alvo: " + targetAudience,
      "Objetivo principal: " + mainObjective,
      "Tom de voz: " + toneOfVoice,
      ForbiddenSlot(forbiddenPatterns),
      Closing ]
  }

  /** Six paragraphs joined: the right-nested form of the separator chain. */
  lemma {:induction false} JoinSix(p0: string, p1: string, p2: string, p3: string, p4: string, p5: string)
    ensures JoinParagraphs([p0, p1, p2, p3, p4, p5])
         == p0 + "\n\n" + (p1 + "\n\n" + (p2 + "\n\n" + (p3 + "\n\n" + (p4 + "\n\n" + p5))))
  {
    var ps := [p0, p1, p2, p3, p4, p5];
    assert JoinParagraphs(ps[5..]) == p5 by { assert ps[5..] == [p5]; }
    assert JoinParagraphs(ps[4..]) == p4 + "\n\n" + p5 by { assert ps[4..][1..] == ps[5..]; }
    assert JoinParagraphs(ps[3..]) == p3 + "\n\n" + JoinParagraphs(ps[4..]) by { assert ps[3..][1..] == ps[4..]; }
    assert JoinParagraphs(ps[2..]) == p2 + "\n\n" + JoinParagraphs(ps[3..]) by { assert ps[2..][1..] == ps[3..]; }
    assert JoinParagraphs(ps[1..]) == p1 + "\n\n" + JoinParagraphs(ps[2..]) by { assert ps[1..][1..] == ps[2..]; }
  }

  /** Re-association of the template's pieces into its paragraphs. */
  lemma Regroup(a: string, b: string, c: string, d: string, e: string, sep: string,
                f: string, g: string, h: string, i: string, j: string, k: string, slot: string, closing: string)
    ensures a + b + c + d + e + sep + f + g + sep + h + i + sep + j + k + sep + slot + sep + closing
         == (a + b + c + d + e) + sep + ((f + g) + sep + ((h + i) + sep + ((j + k) + sep + (slot + sep + closing))))
  {
  }

  /** The template is its six paragraphs (persona, audience, objective, tone, forbidden slot, closing) joined by blank lines. */
  lemma BaseTemplateIsParagraphs(agentName: string, agentRole: string, targetAudience: string,
                                 mainObjective: string, toneOfVoice: string, forbiddenPatterns: string)
    ensures BaseTemplate(agentName, agentRole, targetAudience, mainObjective, toneOfVoice, forbiddenPatterns)
         == JoinParagraphs(Paragraphs(agentName, agentRole, targetAudience, mainObjective, toneOfVoice, forbiddenPatterns))
  {
    JoinSix(PersonaLine(agentName, agentRole), "Público-alvo: " + targetAudience,
            "Objetivo principal: " + mainObjective, "Tom de voz: " + toneOfVoice,
            ForbiddenSlot(forbiddenPatterns), Closing);
    Regroup("Você é ", agentName, ", ", agentRole, ".", "\n\n", "Público-alvo: ", targetAudience,
            "Objetivo principal: ", mainObjective, "Tom de voz: ", toneOfVoice,
            ForbiddenSlot(forbiddenPatterns), Closing);
  }

  /** Concatenation regroups. */
  lemma Assoc(a: string, b: string, c: string)
    ensures a + (b + c) == a + b + c
  {
  }

  /** A string is a prefix of itself followed by anything, and slicing it off leaves the rest. */
  lemma Split(a: string, b: string)
    ensures a <= a + b && (a + b)[..|a|] == a && (a + b)[|a|..] == b
  {
  }

  /** The head is the persona line followed by the rest of the head. */
  lemma HeadAfterPersona(agentName: string, agentRole: string, targetAudience: string,
                         mainObjective: string, toneOfVoice: string)
    ensures Head(agentName, agentRole, targetAudience, mainObjective, toneOfVoice)
         == PersonaLine(agentName, agentRole)
            + ("\n\n" + "Público-alvo: " + targetAudience + "\n\n" + "Objetivo principal: " + mainObjective
               + "\n\n" + "Tom de voz: " + toneOfVoice + "\n\n")
  {
    Regroup(PersonaLine(agentName, agentRole), "", "", "", "", "\n\n", "Público-alvo: ", targetAudience,
            "Objetivo principal: ", mainObjective, "Tom de voz: ", toneOfVoice, "", "");
  }

  /**
   * Right after the head, the text holds "Padrões proibidos:\n" followed by the
   * patterns when they are non-empty, and goes straight to the blank line and
   * the closing sentence when they are empty: the block is present iff the
   * patterns are non-empty.
   */
  lemma ForbiddenBlockIff(agentName: string, agentRole: string, targetAudience: string,
                          mainObjective: string, toneOfVoice: string, forbiddenPatterns: string)
    ensures var text := BaseTemplate(agentName, agentRole, targetAudience, mainObjective, toneOfVoice, forbiddenPatterns);
            var k := |Head(agentName, agentRole, targetAudience, mainObjective, toneOfVoice)|;
      && k <= |text|
      && (forbiddenPatterns != "" ==> text[k..] == ForbiddenHeader + forbiddenPatterns + "\n\n" + Closing)
      && (forbiddenPatterns != "" ==> ForbiddenHeader + forbiddenPatterns <= text[k..])
      && (forbiddenPatterns == "" ==> text[k..] == "\n\n" + Closing)
      && (ForbiddenHeader <= text[k..] <==> forbiddenPatterns != "")
  {
    var head := Head(agentName, agentRole, targetAudience, mainObjective, toneOfVoice);
    var text := BaseTemplate(agentName, agentRole, targetAudience, mainObjective, toneOfVoice, forbiddenPatterns);
    var slot := ForbiddenSlot(forbiddenPatterns);
    var rest := slot + "\n\n" + Closing;
    Assoc(head, slot, "\n\n");
    Assoc(head, slot + "\n\n", Closing);
    assert text == head + rest;
    Split(head, rest);
    if forbiddenPatterns == "" {
      assert rest == "\n\n" + Closing;
      assert rest[0] != ForbiddenHeader[0];
    } else {
      assert rest == ForbiddenHeader + forbiddenPatterns + "\n\n" + Closing;
      Split(ForbiddenHeader, forbiddenPatterns + "\n\n" + Closing);
      Split(ForbiddenHeader + forbiddenPatterns, "\n\n" + Closing);
    }
  }

  // ---------------------------------------------------------------------------
  // Version kind description
  // ---------------------------------------------------------------------------

  /** `getVersionDescription`: the hint shown under the version-kind selector. */
  function VersionDescription(k: VersionKind): (d: string)
    ensures d != ""
  {
    match k
    case Major => "Mudanças significativas que alteram a funcionalidade principal"
    case Minor => "Novas funcionalidades ou melhorias sem quebrar compatibilidade"
    case Patch => "Correções e ajustes menores"
  }

  /** Each kind has its own description. */
  lemma VersionDescriptionInjective(a: VersionKind, b: VersionKind)
    ensures VersionDescription(a) == VersionDescription(b) ==> a == b
  {
  }

  // ---------------------------------------------------------------------------
  // Dialog state
  // ---------------------------------------------------------------------------

  /** The `prompt` prop: the prompt being edited. */
  datatype PromptRef = PromptRef(id: int, title: string, systemPrompt: Option<string>, version: Option<string>)

  /** `prompt.version || "1.0.0"`: the current-version label; an empty string counts as absent. */
  function CurrentVersionLabel(p: PromptRef): (shown: string)
    ensures shown != ""
    ensures p.version.Some? && p.version.value != "" ==> shown == p.version.value
    ensures p.version.None? || p.version.value == "" ==> shown == "1.0.0"
  {
    if p.version.Some? && p.version.value != "" then p.version.value else "1.0.0"
  }

  /** The payload handed off (logged) when a new version is saved. */
  datatype NewVersionRequest = NewVersionRequest(
    promptId: int, title: string, systemPrompt: string,
    versionType: VersionKind, changeDescription: string)

  /** A snapshot of every state variable of the dialog plus its two props. */
  datatype DialogState = DialogState(
    title: string, systemPrompt: string, versionType: VersionKind, changeDescription: string,
    agentName: string, agentRole: string, targetAudience: string, mainObjective: string,
    toneOfVoice: string, forbiddenPatterns: string, refinementInstructions: string,
    isGenerated: bool, open: bool, prompt: Option<PromptRef>)

  /** `a` and `b` agree on everything except the prompt text and the generated flag. */
  predicate SameExceptDraft(a: DialogState, b: DialogState) {
    && a.title == b.title && a.versionType == b.versionType && a.changeDescription == b.changeDescription
    && a.agentName == b.agentName && a.agentRole == b.agentRole
    && a.targetAudience == b.targetAudience && a.mainObjective == b.mainObjective
    && a.toneOfVoice == b.toneOfVoice && a.forbiddenPatterns == b.forbiddenPatterns
    && a.refinementInstructions == b.refinementInstructions
    && a.open == b.open && a.prompt == b.prompt
  }

  /** The base template filled from a state's six assistant fields. */
  function BaseOf(st: DialogState): string {
    BaseTemplate(st.agentName, st.agentRole, st.targetAudience, st.mainObjective, st.toneOfVoice, st.forbiddenPatterns)
  }

  /** The refinement block appended on re-generation. */
  function RefinementBlock(refinement: string): string {
    RefinementHeader + refinement
  }

  /** Whether generating from `st` appends the refinement block. */
  predicate AppendsRefinement(st: DialogState) {
    st.refinementInstructions != "" && st.isGenerated
  }

  /**
   * The text `handleGeneratePrompt` writes into `systemPrompt` from state `st`:
   * the base template of the fields, with the refinement block after it iff
   * there is refinement text and a draft was already generated. A first
   * generation never has the block.
   */
  function GeneratedText(st: DialogState): (text: string)
    ensures BaseOf(st) <= text
    ensures text == BaseOf(st) <==> !AppendsRefinement(st)
    ensures text == BaseOf(st) + RefinementBlock(st.refinementInstructions) <==> AppendsRefinement(st)
    ensures !st.isGenerated ==> text == BaseOf(st)
  {
    var base := BaseOf(st);
    var block := RefinementBlock(st.refinementInstructions);
    assert |base + block| > |base|;
    if AppendsRefinement(st) then base + block else base
  }

  /** `handleGeneratePrompt` as a state transition: only the draft and the flag change. */
  function AfterGenerate(st: DialogState): (after: DialogState)
    ensures after.systemPrompt == GeneratedText(st) && after.isGenerated
    ensures SameExceptDraft(after, st)
  {
    st.(systemPrompt := GeneratedText(st), isGenerated := true)
  }

  /** `n` successive generations. */
  function GenerateTimes(st: DialogState, n: nat): DialogState {
    if n == 0 then st else AfterGenerate(GenerateTimes(st, n - 1))
  }

  /** The generated text ends with the closing instruction, or with the refinement block when one follows. */
  lemma GeneratedEnding(st: DialogState)
    ensures var text := GeneratedText(st);
      if AppendsRefinement(st) then
        var block := RefinementBlock(st.refinementInstructions);
        |block| <= |text| && text[|text| - |block|..] == block
      else
        |Closing| <= |text| && text[|text| - |Closing|..] == Closing
  {
  }

  /**
   * Generation reads only the assistant fields and the flag: whatever the
   * current `systemPrompt` holds (a manual edit) is overwritten.
   */
  lemma GenerationIgnoresDraft(st: DialogState, edited: string)
    ensures AfterGenerate(st.(systemPrompt := edited)) == AfterGenerate(st)
  {
  }

  /**
   * Once a draft exists, generating again with unchanged fields gives the same
   * state: regeneration is idempotent and the refinement block never piles up.
   */
  lemma RegenerationIdempotent(st: DialogState)
    ensures AfterGenerate(AfterGenerate(st)).isGenerated
    ensures AfterGenerate(AfterGenerate(AfterGenerate(st))) == AfterGenerate(AfterGenerate(st))
    ensures st.isGenerated ==> AfterGenerate(AfterGenerate(st)) == AfterGenerate(st)
  {
  }

  /** However many times generation runs, only the draft and the flag change. */
  lemma {:induction false} GenerateTimesFrame(st: DialogState, n: nat)
    ensures SameExceptDraft(GenerateTimes(st, n), st)
    ensures n >= 1 ==> GenerateTimes(st, n).isGenerated
  {
    if n > 0 {
      GenerateTimesFrame(st, n - 1);
    }
  }

  /**
   * After at least one generation the draft is the base template with at most
   * one refinement block after it, and from the second run on the block is
   * there whenever refinement text is.
   */
  lemma AtMostOneRefinementBlock(st: DialogState, n: nat)
    ensures n >= 1 ==> var d := GenerateTimes(st, n).systemPrompt;
      d == BaseOf(st) || d == BaseOf(st) + RefinementBlock(st.refinementInstructions)
    ensures n >= 2 && st.refinementInstructions != "" ==>
      GenerateTimes(st, n).systemPrompt == BaseOf(st) + RefinementBlock(st.refinementInstructions)
  {
    if n > 0 {
      var prev := GenerateTimes(st, n - 1);
      GenerateTimesFrame(st, n - 1);
      assert BaseOf(prev) == BaseOf(st);
      assert GenerateTimes(st, n).systemPrompt == GeneratedText(prev);
    }
  }

  /** The initial `useState` values, with the given props. */
  function InitialState(prompt: Option<PromptRef>, open: bool): DialogState {
    DialogState("", "", DefaultKind, "", "", "", "", "", "", "", "", false, open, prompt)
  }

  /**
   * The open-time effect: with a prompt and the dialog open, it copies the
   * title and the prompt text in (a missing text becomes "") and resets the
   * version fields; the assistant fields and the generated flag are left as
   * they were. Without a prompt, or closed, nothing changes.
   */
  function AfterLoad(st: DialogState): (loaded: DialogState)
    ensures st.prompt.Some? && st.open ==>
      && loaded.title == st.prompt.value.title
      && loaded.systemPrompt == st.prompt.value.systemPrompt.GetOr("")
      && loaded.changeDescription == "" && loaded.versionType == DefaultKind
    ensures loaded.prompt == st.prompt && loaded.open == st.open && loaded.isGenerated == st.isGenerated
    ensures && loaded.agentName == st.agentName && loaded.agentRole == st.agentRole
            && loaded.targetAudience == st.targetAudience && loaded.mainObjective == st.mainObjective
            && loaded.toneOfVoice == st.toneOfVoice && loaded.forbiddenPatterns == st.forbiddenPatterns
            && loaded.refinementInstructions == st.refinementInstructions
    ensures !(st.prompt.Some? && st.open) ==> loaded == st
  {
    if st.prompt.Some? && st.open then
      st.(title := st.prompt.value.title,
          systemPrompt := st.prompt.value.systemPrompt.GetOr(""),
          changeDescription := "",
          versionType := DefaultKind)
    else st
  }

  /** The values the tone select offers (the stored value, not the label). */
  const ToneValues: seq<string> := ["amigavel", "formal", "tecnico", "educado", "institucional", "neutro", "engracado"]

  /** The main generate button is disabled unless name and role are filled in. */
  predicate GenerateButtonEnabled(st: DialogState) {
    st.agentName != "" && st.agentRole != ""
  }

  /**
   * The refinement button as written: its panel is shown whenever there is
   * prompt text, and the button is enabled whenever there is refinement text.
   */
  predicate RefineButtonEnabled(st: DialogState) {
    st.systemPrompt != "" && st.refinementInstructions != ""
  }

  /** Save needs a title, a prompt text and a change description. */
  predicate SaveButtonEnabled(st: DialogState) {
    st.title != "" && st.systemPrompt != "" && st.changeDescription != ""
  }

  /**
   * As written, the refinement button is offered as soon as the prompt text is
   * non-empty, which it is right after an existing prompt is loaded. Pressing
   * it then, before any generation, bypasses the name/role gate, replaces the
   * loaded text with the template filled from the still-empty assistant
   * fields, and drops the refinement text.
   */
  lemma RefineOnLoadedPrompt()
    ensures var st := AfterLoad(InitialState(Some(PromptRef(1, "Atendimento", Some("Seja breve."), None)), true))
                        .(refinementInstructions := "Mais empatia");
      && RefineButtonEnabled(st) && !GenerateButtonEnabled(st)
      && GeneratedText(st) == BaseTemplate("", "", "", "", "", "")
      && "Você é , ." <= GeneratedText(st)
      && GeneratedText(st) != BaseOf(st) + RefinementBlock(st.refinementInstructions)
  {
    var st := AfterLoad(InitialState(Some(PromptRef(1, "Atendimento", Some("Seja breve."), None)), true))
                .(refinementInstructions := "Mais empatia");
    assert PersonaLine("", "") == "Você é , .";
  }

  /**
   * The evident intent: refinement is offered only on a draft generated since
   * the prompt was loaded. The loader therefore also clears the generated flag,
   * and the button requires it.
   */
  predicate RefineButtonIntended(st: DialogState) {
    st.isGenerated && st.systemPrompt != "" && st.refinementInstructions != ""
  }

  /** The loader as intended: as written, and the loaded text is not a generated draft. */
  function AfterLoadIntended(st: DialogState): DialogState {
    if st.prompt.Some? && st.open then AfterLoad(st).(isGenerated := false) else st
  }

  /**
   * Under the intended guard and loader, refinement is never offered on a
   * freshly loaded text, whatever was generated before; when it is offered,
   * pressing it appends exactly the refinement block to the base template,
   * and it stays offered.
   */
  lemma IntendedRefinementAppends(st: DialogState)
    ensures st.prompt.Some? && st.open ==> !RefineButtonIntended(AfterLoadIntended(st))
    ensures RefineButtonIntended(st) ==>
      && AfterGenerate(st).systemPrompt == BaseOf(st) + RefinementBlock(st.refinementInstructions)
      && RefineButtonIntended(AfterGenerate(st))
  {
  }

  class EditPromptDialog {
    var title: string
    var systemPrompt: string
    var versionType: VersionKind
    var changeDescription: string
    var agentName: string
    var agentRole: string
    var targetAudience: string
    var mainObjective: string
    var toneOfVoice: string
    var forbiddenPatterns: string
    var refinementInstructions: string
    var isGenerated: bool
    /** The `open` prop, as the parent keeps it from `onOpenChange`. */
    var open: bool
    /** The `prompt` prop. */
    var prompt: Option<PromptRef>

    function State(): DialogState
      reads this
    {
      DialogState(title, systemPrompt, versionType, changeDescription,
                  agentName, agentRole, targetAudience, mainObjective,
                  toneOfVoice, forbiddenPatterns, refinementInstructions,
                  isGenerated, open, prompt)
    }

    /** The dialog renders its controls only while open and given a prompt. */
    predicate Shown()
      reads this
    {
      open && prompt.Some?
    }

    predicate GenerateEnabled()
      reads this
    {
      GenerateButtonEnabled(State())
    }

    predicate RefineEnabled()
      reads this
    {
      RefineButtonEnabled(State())
    }

    /** "Começar do Zero" is shown only once a draft was generated. */
    predicate StartOverShown()
      reads this
    {
      isGenerated
    }

    predicate SaveEnabled()
      reads this
    {
      SaveButtonEnabled(State())
    }

    /** Mounting: the `useState` defaults, then the open-time effect. */
    constructor (p: Option<PromptRef>, isOpen: bool)
      ensures State() == AfterLoad(InitialState(p, isOpen))
    {
      title, systemPrompt, versionType, changeDescription := "", "", DefaultKind, "";
      agentName, agentRole, targetAudience, mainObjective := "", "", "", "";
      toneOfVoice, forbiddenPatterns, refinementInstructions := "", "", "";
      isGenerated, open, prompt := false, isOpen, p;
      if p.Some? && isOpen {
        title := p.value.title;
        systemPrompt := p.value.systemPrompt.GetOr("");
        changeDescription := "";
        versionType := DefaultKind;
      }
    }

    /**
     * The parent passes new `prompt`/`open` props and the effect runs: with a
     * prompt and open, it loads title and prompt text and resets the version
     * fields; the assistant fields and `isGenerated` are untouched.
     */
    method PropsChanged(p: Option<PromptRef>, isOpen: bool)
      modifies this
      ensures State() == AfterLoad(old(State()).(prompt := p, open := isOpen))
      ensures p.Some? && isOpen ==>
        title == p.value.title && systemPrompt == p.value.systemPrompt.GetOr("")
        && changeDescription == "" && versionType == Minor
      ensures agentName == old(agentName) && agentRole == old(agentRole)
        && targetAudience == old(targetAudience) && mainObjective == old(mainObjective)
        && toneOfVoice == old(toneOfVoice) && forbiddenPatterns == old(forbiddenPatterns)
        && refinementInstructions == old(refinementInstructions) && isGenerated == old(isGenerated)
    {
      prompt, open := p, isOpen;
      if p.Some? && isOpen {
        title, systemPrompt := p.value.title, p.value.systemPrompt.GetOr("");
        changeDescription, versionType := "", DefaultKind;
      }
    }

    method SetTitle(v: string)
      requires Shown()
      modifies this
      ensures State() == old(State()).(title := v)
    {
      title := v;
    }

    /** A manual edit of the prompt text (either text area). */
    method EditSystemPrompt(v: string)
      requires Shown()
      modifies this
      ensures State() == old(State()).(systemPrompt := v)
    {
      systemPrompt := v;
    }

    method SetAgentName(v: string)
      requires Shown()
      modifies this
      ensures State() == old(State()).(agentName := v)
    {
      agentName := v;
    }

    method SetAgentRole(v: string)
      requires Shown()
      modifies this
      ensures State() == old(State()).(agentRole := v)
    {
      agentRole := v;
    }

    method SetTargetAudience(v: string)
      requires Shown()
      modifies this
      ensures State() == old(State()).(targetAudience := v)
    {
      targetAudience := v;
    }

    method SetMainObjective(v: string)
      requires Shown()
      modifies this
      ensures State() == old(State()).(mainObjective := v)
    {
      mainObjective := v;
    }

    /** The tone select stores one of its item values. */
    method SelectTone(v: string)
      requires Shown() && v in ToneValues
      modifies this
      ensures State() == old(State()).(toneOfVoice := v)
    {
      toneOfVoice := v;
    }

    method SetForbiddenPatterns(v: string)
      requires Shown()
      modifies this
      ensures State() == old(State()).(forbiddenPatterns := v)
    {
      forbiddenPatterns := v;
    }

    /** The refinement text area is shown only once there is a draft. */
    method SetRefinementInstructions(v: string)
      requires Shown() && systemPrompt != ""
      modifies this
      ensures State() == old(State()).(refinementInstructions := v)
    {
      refinementInstructions := v;
    }

    /** The version select casts its value to a kind. */
    method SelectVersionType(v: string)
      requires Shown() && ParseKind(v).Some?
      modifies this
      ensures State() == old(State()).(versionType := ParseKind(v).value)
      ensures KindValue(versionType) == v
    {
      versionType := ParseKind(v).value;
    }

    method SetChangeDescription(v: string)
      requires Shown()
      modifies this
      ensures State() == old(State()).(changeDescription := v)
    {
      changeDescription := v;
    }

    /**
     * `handleGeneratePrompt`, reached from the generate button or the
     * refinement button: rebuilds the draft from the fields, appends the
     * refinement block only on re-generation, and marks the draft generated.
     */
    method GeneratePrompt()
      requires Shown() && (GenerateEnabled() || RefineEnabled())
      modifies this
      ensures State() == AfterGenerate(old(State()))
      ensures isGenerated
      ensures systemPrompt == if old(refinementInstructions) != "" && old(isGenerated)
        then BaseOf(old(State())) + RefinementBlock(old(refinementInstructions))
        else BaseOf(old(State()))
    {
      var generated := BaseTemplate(agentName, agentRole, targetAudience, mainObjective, toneOfVoice, forbiddenPatterns);
      if refinementInstructions != "" && isGenerated {
        generated := generated + RefinementBlock(refinementInstructions);
      }
      systemPrompt := generated;
      isGenerated := true;
    }

    /**
     * `handleStartOver`: clears the seven assistant fields and the draft and
     * resets the flag; title, version kind and change description stay.
     */
    method StartOver()
      requires Shown() && StartOverShown()
      modifies this
      ensures State() == DialogState(old(title), "", old(versionType), old(changeDescription),
                                     "", "", "", "", "", "", "", false, old(open), old(prompt))
    {
      agentName, agentRole, targetAudience, mainObjective := "", "", "", "";
      toneOfVoice, forbiddenPatterns, refinementInstructions := "", "", "";
      systemPrompt, isGenerated := "", false;
    }

    /**
     * `handleSave`: hands off the current title, prompt, kind and description
     * for the prompt being edited and requests close; no field is cleared.
     */
    method Save() returns (req: NewVersionRequest)
      requires Shown() && SaveEnabled()
      modifies this
      ensures req == NewVersionRequest(old(prompt).value.id, old(title), old(systemPrompt),
                                       old(versionType), old(changeDescription))
      ensures State() == old(State()).(open := false)
    {
      req := NewVersionRequest(prompt.value.id, title, systemPrompt, versionType, changeDescription);
      open := false;
    }

    /** "Cancelar" (or dismissing the dialog) only requests close. */
    method Cancel()
      requires Shown()
      modifies this
      ensures State() == old(State()).(open := false)
    {
      open := false;
    }
  }

  /**
   * Once a draft was generated, two more generations with no edit in between
   * write the same text: the refinement block does not pile up.
   */
  method GenerateTwice(d: EditPromptDialog) returns (first: string, second: string)
    requires d.Shown() && d.GenerateEnabled() && d.isGenerated
    modifies d
    ensures first == second == d.systemPrompt
    ensures BaseOf(old(d.State())) <= second
    ensures d.isGenerated
  {
    d.GeneratePrompt();
    first := d.systemPrompt;
    d.GeneratePrompt();
    second := d.systemPrompt;
    RegenerationIdempotent(old(d.State()));
  }
}
