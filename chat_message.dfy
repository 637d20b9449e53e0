/** `ChatMessage`: how one message of the log is shown (the greeting, an image
    bubble or a text bubble) and which gestures on it ask for its deletion.
    `onDelete` is the callback, so a deletion request is the returned id. */
module ChatMessage {
  import opened Wrappers
  import opened Js
  import Personas

  datatype Sender = User | Ai

  /** A message of the log; `imageUrl` is optional. */
  datatype Message = Message(id: string, sender: Sender, text: string, imageUrl: Option<string>)

  /** The parts of the user's profile the bubble reads; `name` may be absent. */
  datatype UserProfile = UserProfile(name: Option<string>, avatar: string)

  const InitialId: string := "initial"

  datatype MessageKind = GreetingKind | ImageKind | TextKind

  /** The if-chain of `ChatMessage`: the greeting first, then a truthy `imageUrl`. */
  function Classify(m: Message): (k: MessageKind)
    ensures k == GreetingKind <==> m.id == InitialId
    ensures k == ImageKind <==> m.id != InitialId && IsTruthy(m.imageUrl)
    ensures k == TextKind <==> m.id != InitialId && !IsTruthy(m.imageUrl)
  {
    if m.id == InitialId then GreetingKind
    else if IsTruthy(m.imageUrl) then ImageKind
    else TextKind
  }

  /** `s.charAt(0)`: the first character, or '' for an empty string. */
  function FirstChar(s: string): (r: string)
    ensures |r| <= 1 && |r| <= |s| && r == s[..|r|]
    ensures r == [] <==> s == []
  {
    if s == [] then [] else [s[0]]
  }

  /** The user's avatar fallback, `userProfile.name?.charAt(0) || 'Y'`. */
  function UserInitial(profile: UserProfile): (r: string)
    ensures |r| == 1
    ensures IsTruthy(profile.name) ==> r == [profile.name.value[0]]
    ensures !IsTruthy(profile.name) ==> r == "Y"
  {
    var initial := if profile.name.Some? then FirstChar(profile.name.value) else "";
    if initial != "" then initial else "Y"
  }

  const DownloadPrefix: string := "ai-amigo-"
  const DownloadSuffix: string := ".png"

  /** The `download` file name of an image, `ai-amigo-<id>.png`. */
  function DownloadName(id: string): (r: string)
    ensures |r| == |DownloadPrefix| + |id| + |DownloadSuffix|
    ensures r[..|DownloadPrefix|] == DownloadPrefix
    ensures r[|DownloadPrefix|..|r| - |DownloadSuffix|] == id
    ensures r[|r| - |DownloadSuffix|..] == DownloadSuffix
  {
    var r := DownloadPrefix + id + DownloadSuffix;
    assert r[|DownloadPrefix|..|r| - |DownloadSuffix|] == id;
    r
  }

  /** Different messages download under different file names. */
  lemma DownloadNameInjective(a: string, b: string)
    requires DownloadName(a) == DownloadName(b)
    ensures a == b
  {
    var r := DownloadName(a);
    assert a == r[|DownloadPrefix|..|r| - |DownloadSuffix|] == b;
  }

  /** The horizontal drag range of a text bubble. */
  datatype DragBounds = DragBounds(left: int, right: int)

  /** `dragConstraints`: users' bubbles move left up to 80, the AI's right up to 80. */
  function DragConstraints(isUser: bool): (b: DragBounds)
    ensures b.left <= 0 <= b.right && b.right - b.left == 80
    ensures isUser <==> b.left < 0
    ensures isUser ==> b.right == 0
  {
    if isUser then DragBounds(-80, 0) else DragBounds(0, 80)
  }

  /** What is drawn for one message: the avatar fallback letter is the persona's
      for the greeting and the AI's bubbles, the user's for the user's bubbles. */
  datatype View =
    | Greeting(text: string, fallback: string)
    | ImageBubble(fromUser: bool, url: string, downloadName: string, caption: Option<string>, fallback: string)
    | TextBubble(fromUser: bool, text: string, drag: DragBounds, fallback: string)

  function Render(m: Message, persona: Personas.Persona, profile: UserProfile): (v: View)
    ensures v.Greeting? <==> Classify(m) == GreetingKind
    ensures v.ImageBubble? <==> Classify(m) == ImageKind
    ensures v.TextBubble? <==> Classify(m) == TextKind
    ensures v.Greeting? ==> v.text == m.text && v.fallback == FirstChar(persona.name)
    ensures v.ImageBubble? ==>
      && v.url == m.imageUrl.value
      && v.downloadName == DownloadName(m.id)
      && (v.caption.Some? <==> m.text != "")
      && (v.caption.Some? ==> v.caption.value == m.text)
    ensures !v.Greeting? ==>
      && v.fromUser == (m.sender == User)
      && v.fallback == (if m.sender == User then UserInitial(profile) else FirstChar(persona.name))
    ensures v.TextBubble? ==> v.text == m.text && v.drag == DragConstraints(m.sender == User)
  {
    var isUser := m.sender == User;
    var fallback := if isUser then UserInitial(profile) else FirstChar(persona.name);
    match Classify(m)
    case GreetingKind => Greeting(m.text, FirstChar(persona.name))
    case ImageKind =>
      ImageBubble(isUser, m.imageUrl.value, DownloadName(m.id),
        if m.text != "" then Some(m.text) else None, fallback)
    case TextKind => TextBubble(isUser, m.text, DragConstraints(isUser), fallback)
  }

  /** A gesture on a rendered message: a click on the trash button shown beside
      it, or the end of a horizontal drag with the pointer's x offset. */
  datatype Gesture = TrashClick | DragEnd(offsetX: real)

  const SwipeThreshold: real := -50.0

  /** The id handed to `onDelete` by gesture `g`, if any. The greeting and image
      bubbles carry no delete control; on a text bubble the AI's trash button
      deletes, the user's has no handler, and a user's bubble is deleted by a
      drag ending further left than -50. */
  function DeleteRequest(m: Message, g: Gesture): (r: Option<string>)
    ensures r.Some? ==> r.value == m.id
    ensures r.Some? <==>
      && Classify(m) == TextKind
      && ((m.sender == Ai && g == TrashClick) || (m.sender == User && g.DragEnd? && g.offsetX < SwipeThreshold))
  {
    match Classify(m)
    case GreetingKind => None
    case ImageKind => None
    case TextKind =>
      match g
      case TrashClick => if m.sender == Ai then Some(m.id) else None
      case DragEnd(x) => if m.sender == User && x < SwipeThreshold then Some(m.id) else None
  }

  /** The greeting is never deleted, whatever its sender, image or gesture. */
  lemma GreetingIsNeverDeleted(m: Message, g: Gesture, persona: Personas.Persona, profile: UserProfile)
    requires m.id == InitialId
    ensures DeleteRequest(m, g) == None
    ensures Render(m, persona, profile) == Greeting(m.text, FirstChar(persona.name))
  {
  }

  /** A drag that stays within the user's drag range but short of the threshold
      deletes nothing; the range itself reaches past it. */
  lemma SwipeThresholdWithinDragRange(m: Message, x: real)
    requires Classify(m) == TextKind && m.sender == User
    ensures DragConstraints(true).left as real < SwipeThreshold
    ensures DeleteRequest(m, DragEnd(x)).Some? <==> x < SwipeThreshold
  {
  }
}
