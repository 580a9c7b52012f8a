/**
 * The create-agent dialog: a name, a lifecycle status (default "active"), a
 * prompt and a model; save needs the name, the prompt and the model, hands
 * the four values off, requests close and resets every field.
 */
module CreateAgent {
  import opened Wrappers

  datatype AgentStatus = Active | Inactive

  /** The string the source stores for a status (the select item's value). */
  function StatusValue(s: AgentStatus): (v: string)
    ensures v == "active" || v == "inactive"
  {
    match s
    case Active => "active"
    case Inactive => "inactive"
  }

  /** The `v as "active" | "inactive"` cast on the status select's value. */
  function ParseStatus(v: string): (s: Option<AgentStatus>)
    ensures s.Some? ==> StatusValue(s.value) == v
    ensures s.None? ==> forall status: AgentStatus :: StatusValue(status) != v
  {
    if v == "active" then Some(Active)
    else if v == "inactive" then Some(Inactive)
    else None
  }

  /** The values the prompt select offers. */
  const PromptOptions: seq<string> := ["atendimento", "vendas", "analise", "marketing", "suporte"]

  /** The values the model select offers. */
  const ModelOptions: seq<string> := [
    "gemini-2.5-flash", "gemini-2.5-pro", "gpt-5", "gpt-5-mini", "gpt-4.1",
    "claude-sonnet-4-5", "claude-opus-4-1"]

  /** The payload handed off (logged) on save. */
  datatype AgentRequest = AgentRequest(name: string, status: AgentStatus, selectedPrompt: string, selectedModel: string)

  /** A snapshot of the dialog's state variables plus its `open` prop. */
  datatype DialogState = DialogState(name: string, status: AgentStatus, selectedPrompt: string, selectedModel: string, open: bool)

  /** The initial `useState` values, to which save returns the form. */
  function InitialState(open: bool): DialogState {
    DialogState("", Active, "", "", open)
  }

  class CreateAgentDialog {
    var name: string
    var status: AgentStatus
    var selectedPrompt: string
    var selectedModel: string
    /** The `open` prop, as the parent keeps it from `onOpenChange`. */
    var open: bool

    function State(): DialogState
      reads this
    {
      DialogState(name, status, selectedPrompt, selectedModel, open)
    }

    /** "Criar Agente" is disabled unless name, prompt and model are all chosen. */
    predicate SaveEnabled()
      reads this
    {
      name != "" && selectedPrompt != "" && selectedModel != ""
    }

    /** Mounting: empty name, status "active", nothing selected. */
    constructor (isOpen: bool)
      ensures State() == InitialState(isOpen)
    {
      name, status, selectedPrompt, selectedModel, open := "", Active, "", "", isOpen;
    }

    /** The parent opens the dialog again: the fields keep what they held. */
    method Reopen()
      modifies this
      ensures State() == old(State()).(open := true)
    {
      open := true;
    }

    method SetName(v: string)
      requires open
      modifies this
      ensures State() == old(State()).(name := v)
    {
      name := v;
    }

    /** The status select hands over one of its two values, cast to a status. */
    method SelectStatus(v: string)
      requires open && ParseStatus(v).Some?
      modifies this
      ensures State() == old(State()).(status := ParseStatus(v).value)
      ensures StatusValue(status) == v
    {
      status := ParseStatus(v).value;
    }

    method SelectPrompt(v: string)
      requires open && v in PromptOptions
      modifies this
      ensures State() == old(State()).(selectedPrompt := v)
    {
      selectedPrompt := v;
    }

    method SelectModel(v: string)
      requires open && v in ModelOptions
      modifies this
      ensures State() == old(State()).(selectedModel := v)
    {
      selectedModel := v;
    }

    /**
     * `handleSave`: hands off the four current values, requests close and
     * puts every field back to its initial value.
     */
    method Save() returns (req: AgentRequest)
      requires open && SaveEnabled()
      modifies this
      ensures req == AgentRequest(old(name), old(status), old(selectedPrompt), old(selectedModel))
      ensures State() == InitialState(false)
    {
      req := AgentRequest(name, status, selectedPrompt, selectedModel);
      open := false;
      name := "";
      status := Active;
      selectedPrompt := "";
      selectedModel := "";
    }

    /** "Cancelar" only requests close: every field is kept. */
    method Cancel()
      requires open
      modifies this
      ensures State() == old(State()).(open := false)
    {
      open := false;
    }
  }
}
