/** The persona selector bar: one link button per registry entry, with the
    button of the persona whose key is the last path segment highlighted. */
module PersonaSelector {
  import opened PersonaChat
  import opened Personas

  /** `pathname.split('/').pop()`: the text after the last '/', or the whole
      path when it has none. A path ending in '/' gives ''. */
  function CurrentRole(pathname: string): (r: string)
    ensures |r| <= |pathname| && r == pathname[|pathname| - |r|..]
    ensures forall i :: 0 <= i < |r| ==> r[i] != '/'
    ensures |r| < |pathname| ==> pathname[|pathname| - |r| - 1] == '/'
  {
    if pathname == [] || pathname[|pathname| - 1] == '/' then []
    else CurrentRole(pathname[..|pathname| - 1]) + [pathname[|pathname| - 1]]
  }

  datatype ButtonVariant = Default | Outline

  /** What one rendered button shows: its variant, its link and its label. */
  datatype PersonaButton = PersonaButton(key: string, variant: ButtonVariant, href: string, roleLabel: string)

  function Href(key: string): string {
    "/chat/" + key
  }

  function ButtonFor(p: Persona, currentRole: string): PersonaButton {
    PersonaButton(p.key, if currentRole == p.key then Default else Outline, Href(p.key), RoleName(p.promptRole))
  }

  /** The buttons `PersonaSelector` renders for `pathname`, one per entry of `Object.values(personas)`. */
  function Buttons(pathname: string): (bs: seq<PersonaButton>)
    ensures |bs| == |Values()|
    ensures forall i :: 0 <= i < |bs| ==>
      && bs[i].key == Values()[i].key
      && bs[i].href == Href(Values()[i].key)
      && bs[i].roleLabel == RoleName(Values()[i].promptRole)
      && (bs[i].variant == Default <==> Values()[i].key == CurrentRole(pathname))
  {
    var role := CurrentRole(pathname);
    seq(|Values()|, i requires 0 <= i < |Values()| => ButtonFor(Values()[i], role))
  }

  /** Registry keys are distinct, so at most one button is highlighted. */
  lemma AtMostOneHighlighted(pathname: string)
    ensures var bs := Buttons(pathname);
      forall i, j :: 0 <= i < |bs| && 0 <= j < |bs| && bs[i].variant == Default && bs[j].variant == Default ==> i == j
  {
    var bs := Buttons(pathname);
    forall i, j | 0 <= i < |bs| && 0 <= j < |bs| && bs[i].variant == Default && bs[j].variant == Default
      ensures i == j
    {
      assert Values()[i].key == CurrentRole(pathname) == Values()[j].key;
      EntryKeysDistinctAndSlashFree();
    }
  }

  /** A path that ends in a key without '/' selects that key. */
  lemma {:induction false} CurrentRoleOfSuffix(prefix: string, key: string)
    requires '/' !in key
    ensures CurrentRole(prefix + "/" + key) == key
  {
    var p := prefix + "/" + key;
    if key != [] {
      var init := key[..|key| - 1];
      assert p[..|p| - 1] == prefix + "/" + init;
      CurrentRoleOfSuffix(prefix, init);
      assert key == init + [key[|key| - 1]];
    }
  }

  /** Following the link of a persona's button highlights exactly that button. */
  lemma LinkHighlightsOwnButton(i: nat)
    requires i < |Values()|
    ensures var bs := Buttons(Href(Values()[i].key));
      forall j :: 0 <= j < |bs| ==> (bs[j].variant == Default <==> j == i)
  {
    EntryKeysDistinctAndSlashFree();
    var key := Values()[i].key;
    CurrentRoleOfSuffix("/chat", key);
    assert Href(key) == "/chat" + "/" + key;
  }
}
