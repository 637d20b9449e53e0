/** The conversation-style settings page: a dictionary from persona key to a
    free-text style, edited at the selected key and saved whole, next to the
    personas dictionary it loads for the tiles. Storage and `JSON.parse` are
    parameters, as on the persona settings page. */
module PersonaStyleSettings {
  import opened Wrappers
  import opened Js
  import Personas
  import opened PersonaSettings

  type StyleMap = map<string, string>

  datatype Loaded = Loaded(personas: PersonaMap, styles: StyleMap)

  /** The mount effect, from the state `current` the styles had before it.
      Both reads sit in one try block: if either `JSON.parse` throws, the catch
      puts the default personas back and leaves the styles as they were. */
  function LoadSettings(
    storedPersonas: Option<string>, storedStyles: Option<string>,
    parsePersonas: string -> Option<PersonaMap>, parseStyles: string -> Option<StyleMap>,
    current: StyleMap): (r: Loaded)
    ensures ParseFails(storedPersonas, parsePersonas) || ParseFails(storedStyles, parseStyles) ==>
      r == Loaded(Personas.Record(), current)
    ensures !ParseFails(storedPersonas, parsePersonas) && !ParseFails(storedStyles, parseStyles) ==>
      && r.personas == (if IsTruthy(storedPersonas) then parsePersonas(storedPersonas.value).value else Personas.Record())
      && r.styles == (if IsTruthy(storedStyles) then parseStyles(storedStyles.value).value else map[])
  {
    if ParseFails(storedPersonas, parsePersonas) then Loaded(Personas.Record(), current)
    else
      var ps := if IsTruthy(storedPersonas) then parsePersonas(storedPersonas.value).value else Personas.Record();
      if ParseFails(storedStyles, parseStyles) then Loaded(Personas.Record(), current)
      else Loaded(ps, if IsTruthy(storedStyles) then parseStyles(storedStyles.value).value else map[])
  }

  /** The update of `handleStyleChange`: `{...styles, [selectedPersonaKey]: value}`
      when a key is selected, no change otherwise. */
  function SetStyle(styles: StyleMap, selected: Option<string>, value: string): (r: StyleMap)
    ensures !IsTruthy(selected) ==> r == styles
    ensures IsTruthy(selected) ==>
      && r.Keys == styles.Keys + {selected.value}
      && r[selected.value] == value
      && forall k :: k in styles && k != selected.value ==> r[k] == styles[k]
  {
    if IsTruthy(selected) then styles[selected.value := value] else styles
  }

  /** The value shown in the style box, `styles[key] || ''`. */
  function DisplayedStyle(styles: StyleMap, key: string): (r: string)
    ensures key !in styles ==> r == ""
    ensures key in styles ==> r == styles[key]
  {
    if key in styles && styles[key] != "" then styles[key] else ""
  }

  /** What is typed into the box for the selected key is what the box then shows,
      and what every other key shows is unchanged. */
  lemma StyleEditRoundTrip(styles: StyleMap, key: string, value: string, other: string)
    requires key != "" && other != key
    ensures DisplayedStyle(SetStyle(styles, Some(key), value), key) == value
    ensures DisplayedStyle(SetStyle(styles, Some(key), value), other) == DisplayedStyle(styles, other)
  {
  }

  class PersonaStylePage {
    var personas: PersonaMap
    var styles: StyleMap
    var selectedPersonaKey: Option<string>

    constructor ()
      ensures personas == map[] && styles == map[] && selectedPersonaKey == None
    {
      personas := map[];
      styles := map[];
      selectedPersonaKey := None;
    }

    /** The mount effect. */
    method Load(
      storedPersonas: Option<string>, storedStyles: Option<string>,
      parsePersonas: string -> Option<PersonaMap>, parseStyles: string -> Option<StyleMap>)
      modifies this
      ensures Loaded(personas, styles) == LoadSettings(storedPersonas, storedStyles, parsePersonas, parseStyles, old(styles))
      ensures selectedPersonaKey == old(selectedPersonaKey)
    {
      var loaded := LoadSettings(storedPersonas, storedStyles, parsePersonas, parseStyles, styles);
      personas := loaded.personas;
      styles := loaded.styles;
    }

    /** A click on a persona tile. */
    method SelectPersona(key: string)
      modifies this
      ensures selectedPersonaKey == Some(key)
      ensures personas == old(personas) && styles == old(styles)
    {
      selectedPersonaKey := Some(key);
    }

    method HandleStyleChange(value: string)
      modifies this
      ensures styles == SetStyle(old(styles), old(selectedPersonaKey), value)
      ensures personas == old(personas) && selectedPersonaKey == old(selectedPersonaKey)
    {
      styles := SetStyle(styles, selectedPersonaKey, value);
    }

    /** `handleSave` writes the whole styles map. */
    method HandleSave() returns (written: StyleMap)
      ensures written == styles
    {
      written := styles;
    }

    /** The style card is shown once a selected key names a loaded persona. */
    function StyleCardShown(): (shown: bool)
      reads this
      ensures shown <==> SelectedPersona(personas, selectedPersonaKey).Some?
    {
      IsTruthy(selectedPersonaKey) && selectedPersonaKey.value in personas
    }
  }
}
