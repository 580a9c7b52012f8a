/**
 * The create-prompt dialog: the same six-field template as the edit dialog,
 * with an ungated generate button, no refinement and no start-over; save
 * needs a title and a prompt text and only requests close.
 */
module CreatePrompt {
  import EditPrompt

  /**
   * The text `handleGeneratePrompt` writes into `systemPrompt`. The source
   * spells the template out again here; it is character for character the
   * edit dialog's base template.
   */
  function GeneratedPrompt(agentName: string, agentRole: string, targetAudience: string,
                           mainObjective: string, toneOfVoice: string, forbiddenPatterns: string): (text: string)
    ensures text == EditPrompt.BaseTemplate(agentName, agentRole, targetAudience, mainObjective, toneOfVoice, forbiddenPatterns)
  {
    "Você é " + agentName + ", " + agentRole + "." + "\n\n"
    + "Público-alvo: " + targetAudience + "\n\n"
    + "Objetivo principal: " + mainObjective + "\n\n"
    + "Tom de voz: " + toneOfVoice + "\n\n"
    + (if forbiddenPatterns != "" then "Padrões proibidos:\n" + forbiddenPatterns else "") + "\n\n"
    + "Siga estas diretrizes em todas as suas interações."
  }

  /**
   * Whatever refinement text an edit dialog holds, the create dialog writes
   * what the edit dialog writes on a first generation: never a refinement block.
   */
  lemma NeverRefines(st: EditPrompt.DialogState)
    requires !st.isGenerated
    ensures GeneratedPrompt(st.agentName, st.agentRole, st.targetAudience, st.mainObjective, st.toneOfVoice, st.forbiddenPatterns)
         == EditPrompt.GeneratedText(st)
  {
  }

  /**
   * The text opens with the persona line and ends with the closing sentence,
   * and holds the forbidden-patterns block right after the head iff patterns were given.
   */
  lemma GeneratedPromptShape(agentName: string, agentRole: string, targetAudience: string,
                             mainObjective: string, toneOfVoice: string, forbiddenPatterns: string)
    ensures var text := GeneratedPrompt(agentName, agentRole, targetAudience, mainObjective, toneOfVoice, forbiddenPatterns);
            var k := |EditPrompt.Head(agentName, agentRole, targetAudience, mainObjective, toneOfVoice)|;
      && EditPrompt.PersonaLine(agentName, agentRole) <= text
      && |EditPrompt.Closing| <= |text| && text[|text| - |EditPrompt.Closing|..] == EditPrompt.Closing
      && k <= |text|
      && (EditPrompt.ForbiddenHeader <= text[k..] <==> forbiddenPatterns != "")
  {
    EditPrompt.ForbiddenBlockIff(agentName, agentRole, targetAudience, mainObjective, toneOfVoice, forbiddenPatterns);
  }

  /** Generation is not gated: with no name and no role the text opens with "Você é , .". */
  lemma UngatedEmptyPersona(targetAudience: string, mainObjective: string, toneOfVoice: string, forbiddenPatterns: string)
    ensures "Você é , ." <= GeneratedPrompt("", "", targetAudience, mainObjective, toneOfVoice, forbiddenPatterns)
  {
    GeneratedPromptShape("", "", targetAudience, mainObjective, toneOfVoice, forbiddenPatterns);
    assert EditPrompt.PersonaLine("", "") == "Você é , .";
  }

  /** With patterns given, the text lists them under "Padrões proibidos:" right after the head. */
  lemma ForbiddenListed(agentName: string, agentRole: string, targetAudience: string,
                        mainObjective: string, toneOfVoice: string, forbiddenPatterns: string)
    requires forbiddenPatterns != ""
    ensures var text := GeneratedPrompt(agentName, agentRole, targetAudience, mainObjective, toneOfVoice, forbiddenPatterns);
            var k := |EditPrompt.Head(agentName, agentRole, targetAudience, mainObjective, toneOfVoice)|;
      && EditPrompt.PersonaLine(agentName, agentRole) <= text
      && k <= |text| && EditPrompt.ForbiddenHeader + forbiddenPatterns <= text[k..]
  {
    EditPrompt.ForbiddenBlockIff(agentName, agentRole, targetAudience, mainObjective, toneOfVoice, forbiddenPatterns);
  }

  /**
   * An example: "Clara", a sales assistant forbidden to use slang, gets a
   * text that opens "Você é Clara, assistente de vendas." and lists "gírias"
   * under "Padrões proibidos:".
   */
  lemma ClaraExample(n: string, r: string, a: string, o: string, t: string, f: string)
    requires n == "Clara" && r == "assistente de vendas" && a == "clientes de e-commerce"
    requires o == "fechar vendas" && t == "amigavel" && f == "gírias"
    ensures var text := GeneratedPrompt(n, r, a, o, t, f);
            var k := |EditPrompt.Head(n, r, a, o, t)|;
      && "Você é Clara, assistente de vendas." <= text
      && k <= |text| && "Padrões proibidos:\ngírias" <= text[k..]
  {
    ForbiddenListed(n, r, a, o, t, f);
    ClaraPersona();
    ClaraForbidden();
  }

  /** The example's persona line, spelled out. */
  lemma ClaraPersona()
    ensures EditPrompt.PersonaLine("Clara", "assistente de vendas") == "Você é Clara, assistente de vendas."
  {
  }

  /** The example's forbidden-patterns block, spelled out. */
  lemma ClaraForbidden()
    ensures EditPrompt.ForbiddenHeader + "gírias" == "Padrões proibidos:\ngírias"
  {
  }

  /** The payload handed off (logged) on save. */
  datatype PromptDraft = PromptDraft(title: string, systemPrompt: string)

  /** A snapshot of every state variable of the dialog plus its `open` prop. */
  datatype DialogState = DialogState(
    title: string, systemPrompt: string,
    agentName: string, agentRole: string, targetAudience: string, mainObjective: string,
    toneOfVoice: string, forbiddenPatterns: string, open: bool)

  class CreatePromptDialog {
    var title: string
    var systemPrompt: string
    var agentName: string
    var agentRole: string
    var targetAudience: string
    var mainObjective: string
    var toneOfVoice: string
    var forbiddenPatterns: string
    /** The `open` prop, as the parent keeps it from `onOpenChange`. */
    var open: bool

    function State(): DialogState
      reads this
    {
      DialogState(title, systemPrompt, agentName, agentRole, targetAudience, mainObjective,
                  toneOfVoice, forbiddenPatterns, open)
    }

    /** "Criar Prompt" is disabled unless both title and prompt text are filled in. */
    predicate SaveEnabled()
      reads this
    {
      title != "" && systemPrompt != ""
    }

    /** Mounting: every field starts empty. */
    constructor (isOpen: bool)
      ensures State() == DialogState("", "", "", "", "", "", "", "", isOpen)
    {
      title, systemPrompt := "", "";
      agentName, agentRole, targetAudience, mainObjective := "", "", "", "";
      toneOfVoice, forbiddenPatterns := "", "";
      open := isOpen;
    }

    /** The parent opens the dialog again: the fields keep what they held. */
    method Reopen()
      modifies this
      ensures State() == old(State()).(open := true)
    {
      open := true;
    }

    method SetTitle(v: string)
      requires open
      modifies this
      ensures State() == old(State()).(title := v)
    {
      title := v;
    }

    /** A manual edit of the prompt text (either text area). */
    method EditSystemPrompt(v: string)
      requires open
      modifies this
      ensures State() == old(State()).(systemPrompt := v)
    {
      systemPrompt := v;
    }

    method SetAgentName(v: string)
      requires open
      modifies this
      ensures State() == old(State()).(agentName := v)
    {
      agentName := v;
    }

    method SetAgentRole(v: string)
      requires open
      modifies this
      ensures State() == old(State()).(agentRole := v)
    {
      agentRole := v;
    }

    method SetTargetAudience(v: string)
      requires open
      modifies this
      ensures State() == old(State()).(targetAudience := v)
    {
      targetAudience := v;
    }

    method SetMainObjective(v: string)
      requires open
      modifies this
      ensures State() == old(State()).(mainObjective := v)
    {
      mainObjective := v;
    }

    /** The tone select stores one of its item values. */
    method SelectTone(v: string)
      requires open && v in EditPrompt.ToneValues
      modifies this
      ensures State() == old(State()).(toneOfVoice := v)
    {
      toneOfVoice := v;
    }

    method SetForbiddenPatterns(v: string)
      requires open
      modifies this
      ensures State() == old(State()).(forbiddenPatterns := v)
    {
      forbiddenPatterns := v;
    }

    /**
     * `handleGeneratePrompt`: always enabled; overwrites the prompt text with
     * the template filled from the six fields and changes nothing else.
     */
    method GeneratePrompt()
      requires open
      modifies this
      ensures systemPrompt == EditPrompt.BaseTemplate(old(agentName), old(agentRole), old(targetAudience),
                                                      old(mainObjective), old(toneOfVoice), old(forbiddenPatterns))
      ensures State() == old(State()).(systemPrompt := systemPrompt)
    {
      systemPrompt := GeneratedPrompt(agentName, agentRole, targetAudience, mainObjective, toneOfVoice, forbiddenPatterns);
    }

    /** `handleSave`: hands off title and prompt text and requests close; no field is cleared. */
    method Save() returns (draft: PromptDraft)
      requires open && SaveEnabled()
      modifies this
      ensures draft == PromptDraft(old(title), old(systemPrompt))
      ensures State() == old(State()).(open := false)
    {
      draft := PromptDraft(title, systemPrompt);
      open := false;
    }

    /** "Cancelar" (or dismissing the dialog) only requests close. */
    method Cancel()
      requires open
      modifies this
      ensures State() == old(State()).(open := false)
    {
      open := false;
    }
  }
}
