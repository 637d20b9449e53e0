/** The persona registry: the `personas` record and `personaKeys`. The record
    is an ordered list of (record key, entry) pairs, the order in which a
    JavaScript object literal keeps its string keys. The `icon` component of
    each entry is markup and is not modelled. */
module Personas {
  import opened Wrappers
  import opened PersonaChat

  datatype Persona = Persona(
    key: string,
    name: string,
    promptRole: Role,
    initialMessage: string,
    avatar: string)

  const PlaceholderAvatar: string := "https://placehold.co/100x100.png"

  /** The `personas` record literal, in declaration order. */
  const Entries: seq<(string, Persona)> := [
    ("brother", Persona("brother", "Your Brother", Brother,
      "What's up? Need to talk about something or just chill?", PlaceholderAvatar)),
    ("friend", Persona("friend", "Your Friend", Friend,
      "Hey buddy! How's it going? Anything new and exciting happening?", PlaceholderAvatar)),
    ("girlfriend", Persona("girlfriend", "Your Girlfriend \U{2764}\U{FE0F}", Girlfriend,
      "Heyy! I was just thinking about you. How was your day, Ji?", PlaceholderAvatar)),
    ("mother", Persona("mother", "Your Mother", Mother,
      "Hi beta, have you eaten? I was just worried about you. Everything okay?", PlaceholderAvatar)),
    ("father", Persona("father", "Your Father", Father,
      "Son, how are things? Remember to stand tall. Let's talk.", PlaceholderAvatar))
  ]

  /** `personaKeys = Object.keys(personas)`. */
  function PersonaKeys(): (keys: seq<string>)
    ensures |keys| == |Entries|
    ensures forall i :: 0 <= i < |keys| ==> keys[i] == Entries[i].0
  {
    seq(|Entries|, i requires 0 <= i < |Entries| => Entries[i].0)
  }

  /** `Object.values(personas)`. */
  function Values(): (ps: seq<Persona>)
    ensures |ps| == |Entries|
    ensures forall i :: 0 <= i < |ps| ==> ps[i] == Entries[i].1
  {
    seq(|Entries|, i requires 0 <= i < |Entries| => Entries[i].1)
  }

  /** The record keys, in declaration order. */
  const Keys: seq<string> := ["brother", "friend", "girlfriend", "mother", "father"]

  /** Each entry sits under its own key, in the order of `Keys`. */
  lemma EntriesFollowKeys()
    ensures |Entries| == |Keys|
    ensures forall i :: 0 <= i < |Entries| ==> Entries[i].0 == Keys[i] && Entries[i].1.key == Keys[i]
  {
  }

  /** No two keys are equal (they differ in their first two letters), and
      none contains '/'. */
  lemma KeysDistinct()
    ensures forall i, j :: 0 <= i < |Keys| && 0 <= j < |Keys| && Keys[i] == Keys[j] ==> i == j
    ensures forall i :: 0 <= i < |Keys| ==> '/' !in Keys[i]
  {
    assert forall i, j :: 0 <= i < j < |Keys| ==> Keys[i][0] != Keys[j][0] || Keys[i][1] != Keys[j][1];
  }

  /** The registry has exactly the five keys brother, friend, girlfriend,
      mother and father, each once, and `personaKeys` lists exactly them. */
  lemma RegistryKeys()
    ensures PersonaKeys() == ["brother", "friend", "girlfriend", "mother", "father"]
    ensures forall i, j :: 0 <= i < j < |PersonaKeys()| ==> PersonaKeys()[i] != PersonaKeys()[j]
    ensures Record().Keys == set k | k in PersonaKeys()
  {
    EntriesFollowKeys();
    KeysDistinct();
    assert PersonaKeys() == Keys;
  }

  /** The entries' own keys are pairwise distinct and contain no '/', so each
      can be the last segment of a route. */
  lemma EntryKeysDistinctAndSlashFree()
    ensures forall i, j :: 0 <= i < |Values()| && 0 <= j < |Values()| && Values()[i].key == Values()[j].key ==> i == j
    ensures forall i :: 0 <= i < |Values()| ==> '/' !in Values()[i].key
  {
    EntriesFollowKeys();
    KeysDistinct();
  }

  /** The record as a dictionary, as the settings pages hold it: each key
      maps to the entry declared under it. */
  function Record(): (m: map<string, Persona>)
    ensures forall k :: k in m <==> k in Keys
    ensures forall i :: 0 <= i < |Entries| ==> Entries[i].0 in m && m[Entries[i].0] == Entries[i].1
    ensures forall k :: k in m ==> m[k].key == k
  {
    EntriesFollowKeys();
    KeysDistinct();
    map i | 0 <= i < |Entries| :: Entries[i].0 := Entries[i].1
  }

  /** `personas[key]`, `undefined` for a key the record does not have. */
  function Lookup(key: string): (r: Option<Persona>)
    ensures r.Some? <==> key in PersonaKeys()
    ensures r.Some? ==> r.value.key == key
    ensures forall i :: 0 <= i < |Entries| && Entries[i].0 == key ==> r == Some(Entries[i].1)
  {
    EntriesFollowKeys();
    if key in Record() then Some(Record()[key]) else None
  }

  /** The `promptRole` of each entry, in record order. */
  function PromptRoles(): (roles: seq<Role>)
    ensures |roles| == |Entries|
    ensures forall i :: 0 <= i < |roles| ==> roles[i] == Entries[i].1.promptRole
  {
    seq(|Entries|, i requires 0 <= i < |Entries| => Entries[i].1.promptRole)
  }

  /** The five `promptRole`s are pairwise distinct and cover the role enum. */
  lemma PromptRolesAreABijection()
    ensures forall i, j :: 0 <= i < j < |PromptRoles()| ==> PromptRoles()[i] != PromptRoles()[j]
    ensures forall r: Role :: r in PromptRoles()
  {
    forall r: Role ensures r in PromptRoles() {
      var i := match r case Brother => 0 case Friend => 1 case Girlfriend => 2 case Mother => 3 case Father => 4;
      assert PromptRoles()[i] == r;
    }
  }

  /** Every `promptRole` is a value the chat flow's `role` enum accepts. */
  lemma PromptRolesAcceptedByChatFlow()
    ensures forall i :: 0 <= i < |Entries| ==>
      ParseRole(RoleName(Entries[i].1.promptRole)) == Some(Entries[i].1.promptRole)
  {
    forall i | 0 <= i < |Entries|
      ensures ParseRole(RoleName(Entries[i].1.promptRole)) == Some(Entries[i].1.promptRole)
    {
      RoleNameRoundTrip(Entries[i].1.promptRole);
    }
  }

  /** Every persona opens its conversation with a non-empty greeting. */
  lemma InitialMessagesNonEmpty()
    ensures forall i :: 0 <= i < |Entries| ==> Entries[i].1.initialMessage != ""
  {
  }
}
