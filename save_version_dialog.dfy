/**
 * The save-version dialog: a bump kind (default "minor") and free-text notes;
 * save is enabled only when the notes hold a non-whitespace character, hands
 * the current kind and the untrimmed notes to `onSave`, then resets the form.
 */
module SaveVersion {
  import opened Versioning
  import opened JsString

  /** One row of the `versionInfo` table. */
  datatype VersionInfo = VersionInfo(title: string, description: string, example: string)

  /** Upper-cases the first character when it is an ASCII lower-case letter. */
  function Capitalize(s: string): string {
    if s != [] && 'a' <= s[0] <= 'z' then [(s[0] as int - 32) as char] + s[1..] else s
  }

  /** The title, description and example the dialog shows for each kind. */
  const MajorInfo: VersionInfo := VersionInfo(
    "Major",
    "Use quando fizer mudanças significativas ou incompatíveis no comportamento do agente",
    "Ex: Mudança completa na personalidade ou objetivo do agente")
  const MinorInfo: VersionInfo := VersionInfo(
    "Minor",
    "Use quando adicionar funcionalidades ou melhorias que não quebram o comportamento atual",
    "Ex: Adicionar novas instruções ou melhorar respostas")
  const PatchInfo: VersionInfo := VersionInfo(
    "Patch",
    "Use para pequenos ajustes, correções ou refinamentos",
    "Ex: Correção de erros gramaticais ou pequenos ajustes de tom")

  /**
   * `versionInfo[versionType]`: defined for every kind; the title is the
   * kind's value capitalised and every entry is filled in.
   */
  function InfoFor(k: VersionKind): (info: VersionInfo)
    ensures info.title == Capitalize(KindValue(k))
    ensures info.description != "" && info.example != ""
  {
    match k
    case Major => MajorInfo
    case Minor => MinorInfo
    case Patch => PatchInfo
  }

  /** `!notes.trim()` negated: the notes hold at least one non-whitespace character. */
  predicate NotesAccepted(notes: string) {
    Trim(notes) != ""
  }

  /** Notes are accepted iff some character is not whitespace; whitespace-only notes are refused. */
  lemma NotesAcceptedIff(notes: string)
    ensures NotesAccepted(notes) <==> exists i :: 0 <= i < |notes| && !IsWhitespace(notes[i])
  {
    TrimEmptyIff(notes);
  }

  /** A snapshot of the dialog's state variables plus its `open` prop. */
  datatype DialogState = DialogState(versionType: VersionKind, notes: string, open: bool)

  class SaveVersionDialog {
    var versionType: VersionKind
    var notes: string
    /** The `open` prop, as the parent keeps it from `onOpenChange`. */
    var open: bool

    function State(): DialogState
      reads this
    {
      DialogState(versionType, notes, open)
    }

    /** "Salvar Versão" is disabled while `notes.trim()` is empty. */
    predicate SaveEnabled()
      reads this
    {
      NotesAccepted(notes)
    }

    /** Mounting: kind "minor", no notes. */
    constructor (isOpen: bool)
      ensures State() == DialogState(DefaultKind, "", isOpen)
    {
      versionType, notes, open := DefaultKind, "", isOpen;
    }

    /** The parent opens the dialog again: kind and notes keep what they held. */
    method Reopen()
      modifies this
      ensures State() == old(State()).(open := true)
    {
      open := true;
    }

    /** The select hands over one of its item values, cast to a kind. */
    method SelectVersionType(v: string)
      requires open && ParseKind(v).Some?
      modifies this
      ensures State() == old(State()).(versionType := ParseKind(v).value)
      ensures KindValue(versionType) == v
    {
      versionType := ParseKind(v).value;
    }

    method SetNotes(v: string)
      requires open
      modifies this
      ensures State() == old(State()).(notes := v)
    {
      notes := v;
    }

    /**
     * `handleSave`: returns exactly what is passed to `onSave` (the current
     * kind and the notes as typed, untrimmed), then clears the notes, puts the
     * kind back to "minor" and requests close.
     */
    method Save() returns (kind: VersionKind, savedNotes: string)
      requires open && SaveEnabled()
      modifies this
      ensures kind == old(versionType) && savedNotes == old(notes)
      ensures exists i :: 0 <= i < |savedNotes| && !IsWhitespace(savedNotes[i])
      ensures State() == DialogState(DefaultKind, "", false)
    {
      kind, savedNotes := versionType, notes;
      NotesAcceptedIff(notes);
      notes := "";
      versionType := DefaultKind;
      open := false;
    }

    /** "Cancelar" only requests close: kind and notes are kept. */
    method Cancel()
      requires open
      modifies this
      ensures State() == old(State()).(open := false)
    {
      open := false;
    }
  }
}
