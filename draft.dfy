/** The response form's state and the pure updates that the handlers apply to
    it: the draft record (`formData`), the two pending list entries
    (`newSocialLink`, `newNewsItem`) and the error message. Every function
    here computes a whole new value, as the component's object spread,
    array spread and `filter` expressions do. */
module FormDraft {
  import opened JsText
  import SubmitErrors

  /** A file the user picked in the image input; its contents are opaque. */
  datatype File = File(id: nat)

  /** The `image` slot: `null` initially, `undefined` when a file input
      reports an empty file list (`files[0]`), or the picked file. */
  datatype ImageSlot = NullImage | UndefinedImage | Picked(file: File)

  /** The draft record, with its keys in declaration order. Every text
      input delivers a string, so `activeMembers` is a string too. */
  datatype Draft = Draft(
    title: string,
    image: ImageSlot,
    link: string,
    description: string,
    activeMembers: string,
    socials: seq<string>,
    category: string,
    news: seq<string>)

  /** The draft every session starts from and every reset returns to. */
  const EmptyDraft := Draft("", NullImage, "", "", "", [], "", [])

  /** The keys of the draft record. */
  datatype Key = TitleKey | ImageKey | LinkKey | DescriptionKey
               | ActiveMembersKey | SocialsKey | CategoryKey | NewsKey

  /** `Object.keys(formData)`: the keys in the order they are declared. */
  const DraftKeys: seq<Key> :=
    [TitleKey, ImageKey, LinkKey, DescriptionKey, ActiveMembersKey, SocialsKey, CategoryKey, NewsKey]

  function KeyName(k: Key): string {
    match k
    case TitleKey => "title"
    case ImageKey => "image"
    case LinkKey => "link"
    case DescriptionKey => "description"
    case ActiveMembersKey => "activeMembers"
    case SocialsKey => "socials"
    case CategoryKey => "category"
    case NewsKey => "news"
  }

  /** The JavaScript values a draft field can hold. */
  datatype JsValue = Str(s: string) | Null | Undefined | FileObject(file: File) | StrArray(items: seq<string>)

  function ImageValue(i: ImageSlot): JsValue {
    match i
    case NullImage => Null
    case UndefinedImage => Undefined
    case Picked(f) => FileObject(f)
  }

  /** `formData[key]`. */
  function Get(d: Draft, k: Key): JsValue {
    match k
    case TitleKey => Str(d.title)
    case ImageKey => ImageValue(d.image)
    case LinkKey => Str(d.link)
    case DescriptionKey => Str(d.description)
    case ActiveMembersKey => Str(d.activeMembers)
    case SocialsKey => StrArray(d.socials)
    case CategoryKey => Str(d.category)
    case NewsKey => StrArray(d.news)
  }

  /** JavaScript truthiness of a field value. */
  predicate Truthy(v: JsValue) {
    match v
    case Str(s) => s != ""
    case Null => false
    case Undefined => false
    case FileObject(_) => true
    case StrArray(_) => true
  }

  // ---------------------------------------------------------------------
  // Field updates (handleChange)

  /** The text inputs wired to `handleChange`. */
  datatype TextField = Title | Link | Description | ActiveMembers | Category

  function TextKey(f: TextField): Key {
    match f
    case Title => TitleKey
    case Link => LinkKey
    case Description => DescriptionKey
    case ActiveMembers => ActiveMembersKey
    case Category => CategoryKey
  }

  /** A change event on one of the inputs wired to `handleChange`: a text
      input names its field and carries its value; the only file input is
      `image` and carries the list of picked files. */
  datatype ChangeEvent = TextChange(field: TextField, value: string) | FileChange(files: seq<File>)

  function EventKey(e: ChangeEvent): Key {
    match e
    case TextChange(f, _) => TextKey(f)
    case FileChange(_) => ImageKey
  }

  /** `type === 'file' ? files[0] : value`. */
  function EventValue(e: ChangeEvent): JsValue {
    match e
    case TextChange(_, v) => Str(v)
    case FileChange(files) => if files == [] then Undefined else FileObject(files[0])
  }

  /** `{...formData, [name]: type === 'file' ? files[0] : value}`. */
  function Change(d: Draft, e: ChangeEvent): Draft {
    match e
    case TextChange(Title, v) => d.(title := v)
    case TextChange(Link, v) => d.(link := v)
    case TextChange(Description, v) => d.(description := v)
    case TextChange(ActiveMembers, v) => d.(activeMembers := v)
    case TextChange(Category, v) => d.(category := v)
    case FileChange(files) => d.(image := if files == [] then UndefinedImage else Picked(files[0]))
  }

  /** A change stores the event's value under the field the event names and
      leaves every other key of the draft as it was. */
  lemma ChangeSetsOnlyNamedField(d: Draft, e: ChangeEvent)
    ensures Get(Change(d, e), EventKey(e)) == EventValue(e)
    ensures forall k :: k != EventKey(e) ==> Get(Change(d, e), k) == Get(d, k)
  {
  }

  // ---------------------------------------------------------------------
  // The whole component state

  datatype FormState = FormState(
    formData: Draft,
    newSocialLink: string,
    newNewsItem: string,
    errorMessage: string)

  /** The state on mount, and the state `handleReset` restores. */
  const Initial := FormState(EmptyDraft, "", "", "")

  // ---------------------------------------------------------------------
  // The list editors

  /** `list.filter((_, i) => i !== index)`: walks the list counting
      positions and keeps every element whose position is not `index`. */
  function RemoveIndex<T>(s: seq<T>, index: int): seq<T>
    decreases |s|
  {
    if s == [] then []
    else (if index == 0 then [] else [s[0]]) + RemoveIndex(s[1..], index - 1)
  }

  /** Removal by index deletes exactly the element at `index` when there is
      one, closing the gap, and leaves the list unchanged otherwise. */
  lemma {:induction false} RemoveIndexDeletesOne<T>(s: seq<T>, index: int)
    ensures 0 <= index < |s| ==> RemoveIndex(s, index) == s[..index] + s[index + 1..]
    ensures !(0 <= index < |s|) ==> RemoveIndex(s, index) == s
    decreases |s|
  {
    if s != [] {
      RemoveIndexDeletesOne(s[1..], index - 1);
      if index == 0 {
        assert s[1..] == s[..0] + s[1..];
      } else if 0 < index < |s| {
        assert [s[0]] + (s[1..][..index - 1] + s[1..][index..]) == s[..index] + s[index + 1..];
      } else {
        assert [s[0]] + s[1..] == s;
      }
    }
  }

  /** The same, element by element: the survivors keep their relative order,
      those after `index` move down by one, and the length drops by one. */
  lemma RemoveIndexShifts<T>(s: seq<T>, index: int)
    requires 0 <= index < |s|
    ensures |RemoveIndex(s, index)| == |s| - 1
    ensures forall j :: 0 <= j < index ==> RemoveIndex(s, index)[j] == s[j]
    ensures forall j :: index <= j < |s| - 1 ==> RemoveIndex(s, index)[j] == s[j + 1]
  {
    RemoveIndexDeletesOne(s, index);
  }

  /** `handleAddSocialLink`: a pending link that is not blank after trimming
      is appended, untrimmed, and the pending entry is cleared. */
  function AddSocialLink(st: FormState): FormState {
    if Trim(st.newSocialLink) != "" then
      st.(formData := st.formData.(socials := st.formData.socials + [st.newSocialLink]),
          newSocialLink := "")
    else st
  }

  /** `handleRemoveSocialLink(index)`. */
  function RemoveSocialLink(st: FormState, index: int): FormState {
    st.(formData := st.formData.(socials := RemoveIndex(st.formData.socials, index)))
  }

  /** `handleAddNewsItem`, the same editor over the news list. */
  function AddNewsItem(st: FormState): FormState {
    if Trim(st.newNewsItem) != "" then
      st.(formData := st.formData.(news := st.formData.news + [st.newNewsItem]),
          newNewsItem := "")
    else st
  }

  /** `handleRemoveNewsItem(index)`. */
  function RemoveNewsItem(st: FormState, index: int): FormState {
    st.(formData := st.formData.(news := RemoveIndex(st.formData.news, index)))
  }

  /** Adding a social link: a blank pending entry changes nothing at all; a
      non-blank one ends up, as typed, at the end of `socials`, the pending
      entry is cleared and nothing else changes. */
  lemma AddSocialLinkEffect(st: FormState)
    ensures IsBlank(st.newSocialLink) ==> AddSocialLink(st) == st
    ensures !IsBlank(st.newSocialLink) ==>
      AddSocialLink(st) == FormState(
        st.formData.(socials := st.formData.socials + [st.newSocialLink]),
        "", st.newNewsItem, st.errorMessage)
  {
    TrimEmptyIffBlank(st.newSocialLink);
  }

  /** Adding a news item: the same behaviour on `news` and `newNewsItem`. */
  lemma AddNewsItemEffect(st: FormState)
    ensures IsBlank(st.newNewsItem) ==> AddNewsItem(st) == st
    ensures !IsBlank(st.newNewsItem) ==>
      AddNewsItem(st) == FormState(
        st.formData.(news := st.formData.news + [st.newNewsItem]),
        st.newSocialLink, "", st.errorMessage)
  {
    TrimEmptyIffBlank(st.newNewsItem);
  }

  /** The two editors are independent: the social editor never touches the
      news list or its pending entry, and the news editor never touches the
      social list or its pending entry. */
  lemma EditorsAreIndependent(st: FormState, index: int)
    ensures AddSocialLink(st).formData.news == st.formData.news
    ensures AddSocialLink(st).newNewsItem == st.newNewsItem
    ensures RemoveSocialLink(st, index).formData.news == st.formData.news
    ensures RemoveSocialLink(st, index).newNewsItem == st.newNewsItem
    ensures AddNewsItem(st).formData.socials == st.formData.socials
    ensures AddNewsItem(st).newSocialLink == st.newSocialLink
    ensures RemoveNewsItem(st, index).formData.socials == st.formData.socials
    ensures RemoveNewsItem(st, index).newSocialLink == st.newSocialLink
    ensures AddNewsItem(AddSocialLink(st)) == AddSocialLink(AddNewsItem(st))
  {
  }

  /** Removing the entry just added gives back the list as it was: removal
      at the last index undoes a successful add. */
  lemma RemoveUndoesAddSocialLink(st: FormState)
    requires !IsBlank(st.newSocialLink)
    ensures RemoveSocialLink(AddSocialLink(st), |st.formData.socials|).formData == st.formData
  {
    AddSocialLinkEffect(st);
    var s := st.formData.socials;
    var p := st.newSocialLink;
    RemoveIndexDeletesOne(s + [p], |s|);
    assert (s + [p])[..|s|] + (s + [p])[|s| + 1..] == s;
  }

  lemma RemoveUndoesAddNewsItem(st: FormState)
    requires !IsBlank(st.newNewsItem)
    ensures RemoveNewsItem(AddNewsItem(st), |st.formData.news|).formData == st.formData
  {
    AddNewsItemEffect(st);
    var s := st.formData.news;
    var p := st.newNewsItem;
    RemoveIndexDeletesOne(s + [p], |s|);
    assert (s + [p])[..|s|] + (s + [p])[|s| + 1..] == s;
  }

  /** The walk-through of a list editor: add a link, try to add a blank
      one, remove the first. */
  lemma SocialEditorScenario(st: FormState)
    requires st == Initial.(newSocialLink := "https://x.com")
    ensures AddSocialLink(st).formData.socials == ["https://x.com"]
    ensures AddSocialLink(st).newSocialLink == ""
    ensures AddSocialLink(AddSocialLink(st).(newSocialLink := "  ")) == AddSocialLink(st).(newSocialLink := "  ")
    ensures RemoveSocialLink(AddSocialLink(st), 0).formData.socials == []
  {
    assert !IsTrimSpace(st.newSocialLink[0]);
    AddSocialLinkEffect(st);
    var blank := AddSocialLink(st).(newSocialLink := "  ");
    assert IsBlank(blank.newSocialLink) by {
      assert forall i :: 0 <= i < |blank.newSocialLink| ==> blank.newSocialLink[i] == ' ';
    }
    AddSocialLinkEffect(blank);
    RemoveIndexDeletesOne(["https://x.com"], 0);
  }

  // ---------------------------------------------------------------------
  // The payload built by handleSubmit

  /** What one `dataToSend.append(key, value)` receives: the field value
      itself, or for the two lists the JSON text of the value (kept
      symbolic: which value was stringified). */
  datatype PartValue = Plain(value: JsValue) | JsonText(of: JsValue)

  datatype Part = Part(name: string, value: PartValue)

  /** The part appended for one key: JSON text for `socials` and `news`; the
      file for a truthy `image`; the raw value for every other key, which
      includes an `image` that is still `null`. */
  function PartFor(d: Draft, k: Key): Part {
    if k == SocialsKey || k == NewsKey then Part(KeyName(k), JsonText(Get(d, k)))
    else if k == ImageKey && Truthy(Get(d, k)) then Part(KeyName(k), Plain(Get(d, k)))
    else Part(KeyName(k), Plain(Get(d, k)))
  }

  /** The parts appended while iterating over `keys`, in order. */
  function PartsFor(d: Draft, keys: seq<Key>): seq<Part> {
    if keys == [] then []
    else PartsFor(d, keys[..|keys| - 1]) + [PartFor(d, keys[|keys| - 1])]
  }

  /** The whole payload of one submission. */
  function Payload(d: Draft): seq<Part> {
    PartsFor(d, DraftKeys)
  }

  lemma {:induction false} PartsForLength(d: Draft, keys: seq<Key>)
    ensures |PartsFor(d, keys)| == |keys|
    ensures forall i :: 0 <= i < |keys| ==> PartsFor(d, keys)[i] == PartFor(d, keys[i])
  {
    if keys != [] {
      PartsForLength(d, keys[..|keys| - 1]);
    }
  }

  /** The payload has one part per draft key, in declaration order; the two
      lists travel as JSON text, every other field as its raw value, and
      `image` is present even when no file was picked. */
  lemma PayloadLayout(d: Draft)
    ensures Payload(d) == [
      Part("title", Plain(Str(d.title))),
      Part("image", Plain(ImageValue(d.image))),
      Part("link", Plain(Str(d.link))),
      Part("description", Plain(Str(d.description))),
      Part("activeMembers", Plain(Str(d.activeMembers))),
      Part("socials", JsonText(StrArray(d.socials))),
      Part("category", Plain(Str(d.category))),
      Part("news", JsonText(StrArray(d.news)))]
  {
    PartsForLength(d, DraftKeys);
  }

  /** No part name occurs twice: each key is sent exactly once. */
  lemma PayloadNamesDistinct(d: Draft)
    ensures forall i, j :: 0 <= i < j < |Payload(d)| ==> Payload(d)[i].name != Payload(d)[j].name
  {
    PayloadLayout(d);
  }

  // ---------------------------------------------------------------------
  // Submission outcome

  /** The abstract result of the POST. */
  datatype Outcome = Succeeded | Failed(error: SubmitErrors.RequestError)

  /** The state once `handleSubmit` has finished: on success `handleReset`
      has run; on failure the draft and pending entries are as before and
      the message describing the error replaces the cleared one. */
  function AfterSubmit(st: FormState, o: Outcome): FormState {
    match o
    case Succeeded => Initial
    case Failed(e) => st.(errorMessage := SubmitErrors.Message(e))
  }

  /** Success resets everything; failure keeps the draft and both pending
      entries and always leaves a non-empty message starting "Error". */
  lemma AfterSubmitEffect(st: FormState, o: Outcome)
    ensures o.Succeeded? ==> AfterSubmit(st, o) == Initial
    ensures o.Failed? ==>
      var r := AfterSubmit(st, o);
      r.formData == st.formData && r.newSocialLink == st.newSocialLink
      && r.newNewsItem == st.newNewsItem
      && r.errorMessage != "" && r.errorMessage[..5] == "Error"
  {
  }
}
