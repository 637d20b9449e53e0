/** The persona settings page: a dictionary of personas loaded from storage or
    the registry defaults, edited at the selected persona's entry (its name, or
    its avatar once the chosen file has been read), and saved whole. Storage,
    `JSON.parse` and `FileReader` are parameters: a stored value is an optional
    string, parsing is a function that gives no map when `JSON.parse` throws,
    and a read file is the data URL handed to the reader's completion. */
module PersonaSettings {
  import opened Wrappers
  import opened Js
  import Personas

  type Persona = Personas.Persona
  type PersonaMap = map<string, Persona>

  /** Every entry sits under its own `key`, as in the registry. */
  ghost predicate KeysConsistent(ps: PersonaMap) {
    forall k :: k in ps ==> ps[k].key == k
  }

  /** A stored value is present but `JSON.parse` throws on it. */
  predicate ParseFails<T>(stored: Option<string>, parse: string -> Option<T>) {
    IsTruthy(stored) && parse(stored.value).None?
  }

  /** The load effect: stored personas if present and parsable, else the defaults. */
  function LoadPersonas(stored: Option<string>, parse: string -> Option<PersonaMap>): (r: PersonaMap)
    ensures IsTruthy(stored) && parse(stored.value).Some? ==> r == parse(stored.value).value
    ensures !IsTruthy(stored) || ParseFails(stored, parse) ==> r == Personas.Record()
  {
    if IsTruthy(stored) then
      match parse(stored.value)
      case Some(ps) => ps
      case None => Personas.Record()   // the catch branch
    else Personas.Record()
  }

  /** `selectedPersonaKey ? personas[selectedPersonaKey] : null`. */
  function SelectedPersona(ps: PersonaMap, selected: Option<string>): (r: Option<Persona>)
    ensures r.Some? <==> IsTruthy(selected) && selected.value in ps
    ensures r.Some? ==> r.value == ps[selected.value]
  {
    if IsTruthy(selected) && selected.value in ps then Some(ps[selected.value]) else None
  }

  /** `{...personas, [p.key]: {...p, <field>: v}}`: entry `p.key` becomes `q`,
      every other entry is kept. */
  ghost predicate ReplacedAt(before: PersonaMap, after: PersonaMap, key: string, q: Persona) {
    && after.Keys == before.Keys + {key}
    && after[key] == q
    && forall k :: k in before && k != key ==> after[k] == before[k]
  }

  /** The update of `handleNameChange`; no selected persona, no change. The
      entry written is the one under the selected persona's own `key`. */
  function Rename(ps: PersonaMap, selected: Option<string>, name: string): (r: PersonaMap)
    ensures SelectedPersona(ps, selected).None? ==> r == ps
    ensures SelectedPersona(ps, selected).Some? ==>
      var p := SelectedPersona(ps, selected).value;
      ReplacedAt(ps, r, p.key, p.(name := name))
  {
    match SelectedPersona(ps, selected)
    case None => ps
    case Some(p) => ps[p.key := p.(name := name)]
  }

  /** The commit step of `handleAvatarChange`, run by the reader's `onloadend`
      on the map and persona captured when the file was chosen. */
  function CommitAvatar(snapshot: PersonaMap, p: Persona, dataUrl: string): (r: PersonaMap)
    ensures ReplacedAt(snapshot, r, p.key, p.(avatar := dataUrl))
  {
    snapshot[p.key := p.(avatar := dataUrl)]
  }

  /** With consistent keys, a rename changes only the selected entry's name:
      no key is added, every other field and every other entry is kept, and
      the map stays consistent. */
  lemma RenameChangesOnlyName(ps: PersonaMap, k: string, name: string)
    requires KeysConsistent(ps) && k != "" && k in ps
    ensures var r := Rename(ps, Some(k), name);
      && r.Keys == ps.Keys
      && r[k].name == name
      && r[k] == ps[k].(name := name)
      && (forall j :: j in ps && j != k ==> r[j] == ps[j])
      && KeysConsistent(r)
  {
    var r := Rename(ps, Some(k), name);
    assert ps[k].key == k;
    assert r[k] == ps[k].(name := name);
  }

  /** With consistent keys, an avatar commit on the current map changes only
      the selected entry's avatar and keeps the map consistent. */
  lemma CommitAvatarChangesOnlyAvatar(ps: PersonaMap, k: string, dataUrl: string)
    requires KeysConsistent(ps) && k in ps
    ensures var r := CommitAvatar(ps, ps[k], dataUrl);
      && r.Keys == ps.Keys
      && r[k] == ps[k].(avatar := dataUrl)
      && (forall j :: j in ps && j != k ==> r[j] == ps[j])
      && KeysConsistent(r)
  {
    assert ps[k].key == k;
  }

  /** `disabled={!selectedPersonaKey}` on the save button, on this page and on
      the conversation-style page alike. */
  function SaveDisabled(selected: Option<string>): (disabled: bool)
    ensures disabled <==> selected.None? || selected.value == ""
  {
    !IsTruthy(selected)
  }

  /** A read in progress: what the reader's completion closure captured. */
  datatype AvatarUpload = AvatarUpload(snapshot: PersonaMap, persona: Persona)

  class PersonaSettingsPage {
    var personas: PersonaMap
    var selectedPersonaKey: Option<string>

    constructor ()
      ensures personas == map[] && selectedPersonaKey == None
    {
      personas := map[];
      selectedPersonaKey := None;
    }

    /** The mount effect. */
    method Load(stored: Option<string>, parse: string -> Option<PersonaMap>)
      modifies this
      ensures personas == LoadPersonas(stored, parse)
      ensures selectedPersonaKey == old(selectedPersonaKey)
    {
      personas := LoadPersonas(stored, parse);
    }

    /** A click on a persona tile. */
    method SelectPersona(key: string)
      modifies this
      ensures selectedPersonaKey == Some(key) && personas == old(personas)
    {
      selectedPersonaKey := Some(key);
    }

    method HandleNameChange(value: string)
      modifies this
      ensures personas == Rename(old(personas), old(selectedPersonaKey), value)
      ensures selectedPersonaKey == old(selectedPersonaKey)
    {
      personas := Rename(personas, selectedPersonaKey, value);
    }

    /** `handleAvatarChange`: with a file chosen and a persona selected it starts
        a read and captures the current map and persona; it changes nothing yet. */
    method HandleAvatarChange(hasFile: bool) returns (upload: Option<AvatarUpload>)
      ensures upload.Some? <==> hasFile && SelectedPersona(personas, selectedPersonaKey).Some?
      ensures upload.Some? ==>
        upload.value == AvatarUpload(personas, SelectedPersona(personas, selectedPersonaKey).value)
    {
      var selected := SelectedPersona(personas, selectedPersonaKey);
      if hasFile && selected.Some? {
        upload := Some(AvatarUpload(personas, selected.value));
      } else {
        upload := None;
      }
    }

    /** The reader's `onloadend`: commits on the captured map, not the current one. */
    method CompleteAvatarUpload(upload: AvatarUpload, dataUrl: string)
      modifies this
      ensures personas == CommitAvatar(upload.snapshot, upload.persona, dataUrl)
      ensures selectedPersonaKey == old(selectedPersonaKey)
    {
      personas := CommitAvatar(upload.snapshot, upload.persona, dataUrl);
    }

    /** `handleSave` writes the whole map. */
    method HandleSave() returns (written: PersonaMap)
      ensures written == personas
    {
      written := personas;
    }
  }
}
