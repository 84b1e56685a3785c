/** The new-category form (components/CategoryModal.tsx): one text field whose
    trimmed value is saved when it is not blank. */
module CategoryModal {

  import opened Wrappers
  import Text

  /** What a submit does towards the parent: `onSave(name)`, then `onClose()`. */
  datatype ModalEvent = SaveName(name: string) | Close

  /** The name a submit saves: the field without surrounding white space,
      and nothing when that leaves it empty. */
  function ValidatedName(name: string): (r: Option<string>)
    ensures r.Some? <==> !Text.AllWhiteSpace(name)
    ensures r.Some? ==> |r.value| > 0
    ensures r.Some? ==> !Text.IsWhiteSpace(r.value[0]) && !Text.IsWhiteSpace(r.value[|r.value| - 1])
    ensures r.Some? ==> exists i :: Text.OccursAt(name, r.value, i) && Text.AllWhiteSpace(name[..i]) && Text.AllWhiteSpace(name[i + |r.value|..])
  {
    TrimFacts(name);
    var t := Text.Trim(name);
    if t != "" then Some(t) else None
  }

  lemma TrimFacts(name: string)
    ensures var t := Text.Trim(name);
            && (t != "" <==> !Text.AllWhiteSpace(name))
            && (t != "" ==> !Text.IsWhiteSpace(t[0]) && !Text.IsWhiteSpace(t[|t| - 1]))
            && exists i :: Text.OccursAt(name, t, i) && Text.AllWhiteSpace(name[..i]) && Text.AllWhiteSpace(name[i + |t|..])
  {
    Text.TrimEmptyIff(name);
    Text.TrimIsSlice(name);
  }

  /** Saving an already trimmed name saves it unchanged. */
  lemma ValidatedNameIsStable(name: string)
    requires !Text.AllWhiteSpace(name)
    ensures ValidatedName(ValidatedName(name).value) == ValidatedName(name)
  {
    Text.TrimIdempotent(name);
  }

  /** The form's state. */
  class CategoryForm {
    var name: string

    /** `useState(initialName)`. */
    constructor (initialName: string)
      ensures name == initialName
    {
      name := initialName;
    }

    /** The effect on `[initialName, isOpen]`. */
    method Reset(initialName: string)
      modifies this
      ensures name == initialName
    {
      name := initialName;
    }

    /** Typing into the field. */
    method Type(value: string)
      modifies this
      ensures name == value
    {
      name := value;
    }

    /** `handleSubmit`: a blank field does nothing; otherwise the trimmed name
        is saved, the field is cleared and the form closes. */
    method HandleSubmit() returns (events: seq<ModalEvent>)
      modifies this
      ensures events == match ValidatedName(old(name))
                        case Some(n) => [SaveName(n), Close]
                        case None => []
      ensures name == if events == [] then old(name) else ""
    {
      var trimmed := Text.Trim(name);
      if trimmed != "" {
        events := [SaveName(trimmed), Close];
        name := "";
      } else {
        events := [];
      }
    }
  }
}
