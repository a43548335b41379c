/** A technician: a name and a contact, both trimmed and final. */
module Technicians {
  import opened Common
  import opened Text

  datatype Technician = Technician(id: Id, name: string, contact: string)

  /** The constructor: the name is required; name and contact are stored
      trimmed, a missing contact as the empty string. */
  function NewTechnician(id: Id, name: Option<string>, contact: Option<string>): (r: Result<Technician>)
    ensures r.Err? <==> Missing(name)
    ensures r.Err? ==> r.error == TechnicianNameRequired
    ensures r.Ok? ==> r.value.id == id && r.value.name == Trim(name.value)
    ensures r.Ok? ==> (r.value.name == [] <==> TrimsAway(name.value))
    ensures r.Ok? && r.value.name != [] ==> !IsSpace(r.value.name[0]) && !IsSpace(r.value.name[|r.value.name| - 1])
    ensures r.Ok? && contact.None? ==> r.value.contact == ""
    ensures r.Ok? && contact.Some? ==> r.value.contact == Trim(contact.value)
  {
    if Missing(name) then Err(TechnicianNameRequired)
    else
      Ok(Technician(id, Trim(name.value), TrimmedOrEmpty(contact)))
  }

  /** The blank check runs before the trim and the two use different rules,
      so a name made of a control character is accepted and stored empty. */
  lemma ControlCharacterNameStoredEmpty(id: Id)
    ensures NewTechnician(id, Some("\U{1}"), None) == Ok(Technician(id, "", ""))
  {
    NonBlankMayTrimToEmpty();
  }
}
