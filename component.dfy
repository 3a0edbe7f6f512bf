/** The form component itself: its four state slots become fields, and each
    handler becomes a method that updates them. The POST request is not
    performed here; `HandleSubmit` is given its outcome and returns the
    payload it would send. */
module Component {
  import opened FormDraft
  import SubmitErrors

  class ResponseForm {
    var formData: Draft
    var newSocialLink: string
    var newNewsItem: string
    var errorMessage: string

    /** All four slots together. */
    function State(): FormState
      reads this
    {
      FormState(formData, newSocialLink, newNewsItem, errorMessage)
    }

    /** Mounting: every slot holds its initial value. */
    constructor ()
      ensures State() == Initial
    {
      formData := EmptyDraft;
      newSocialLink := "";
      newNewsItem := "";
      errorMessage := "";
    }

    /** `handleChange`: stores the event's value in the draft field it names. */
    method HandleChange(e: ChangeEvent)
      modifies this
      ensures formData == Change(old(formData), e)
      ensures newSocialLink == old(newSocialLink) && newNewsItem == old(newNewsItem)
      ensures errorMessage == old(errorMessage)
    {
      match e
      case TextChange(field, value) =>
        match field {
          case Title => formData := formData.(title := value);
          case Link => formData := formData.(link := value);
          case Description => formData := formData.(description := value);
          case ActiveMembers => formData := formData.(activeMembers := value);
          case Category => formData := formData.(category := value);
        }
      case FileChange(files) =>
        formData := formData.(image := if files == [] then UndefinedImage else Picked(files[0]));
    }

    /** The social link input's `onChange`. */
    method SetNewSocialLink(value: string)
      modifies this
      ensures State() == old(State()).(newSocialLink := value)
    {
      newSocialLink := value;
    }

    /** The news input's `onChange`. */
    method SetNewNewsItem(value: string)
      modifies this
      ensures State() == old(State()).(newNewsItem := value)
    {
      newNewsItem := value;
    }

    /** `handleReset`: the state is the initial one whatever it was before,
        so resetting again changes nothing. */
    method HandleReset()
      modifies this
      ensures State() == Initial
    {
      formData := EmptyDraft;
      newSocialLink := "";
      newNewsItem := "";
      errorMessage := "";
    }

    method HandleAddSocialLink()
      modifies this
      ensures State() == AddSocialLink(old(State()))
    {
      if JsText.Trim(newSocialLink) != "" {
        formData := formData.(socials := formData.socials + [newSocialLink]);
        newSocialLink := "";
      }
    }

    method HandleRemoveSocialLink(index: int)
      modifies this
      ensures State() == RemoveSocialLink(old(State()), index)
    {
      formData := formData.(socials := RemoveIndex(formData.socials, index));
    }

    method HandleAddNewsItem()
      modifies this
      ensures State() == AddNewsItem(old(State()))
    {
      if JsText.Trim(newNewsItem) != "" {
        formData := formData.(news := formData.news + [newNewsItem]);
        newNewsItem := "";
      }
    }

    method HandleRemoveNewsItem(index: int)
      modifies this
      ensures State() == RemoveNewsItem(old(State()), index)
    {
      formData := formData.(news := RemoveIndex(formData.news, index));
    }

    /** The `forEach` over the draft's keys that fills `dataToSend`. */
    method BuildPayload() returns (parts: seq<Part>)
      ensures parts == Payload(formData)
    {
      var keys := DraftKeys;
      parts := [];
      for i := 0 to |keys|
        invariant parts == PartsFor(formData, keys[..i])
      {
        var key := keys[i];
        if key == SocialsKey || key == NewsKey {
          parts := parts + [Part(KeyName(key), JsonText(Get(formData, key)))];
        } else if key == ImageKey && Truthy(Get(formData, key)) {
          parts := parts + [Part(KeyName(key), Plain(Get(formData, key)))];
        } else {
          parts := parts + [Part(KeyName(key), Plain(Get(formData, key)))];
        }
        assert keys[..i + 1][..i] == keys[..i];
      }
      assert keys[..|keys|] == keys;
    }

    /** `handleSubmit`, given the outcome of the POST: clears the message,
        builds the payload from the current draft, then resets on success
        or sets the message for the error. */
    method HandleSubmit(outcome: Outcome) returns (sent: seq<Part>)
      modifies this
      ensures sent == Payload(old(formData))
      ensures State() == AfterSubmit(old(State()), outcome)
    {
      errorMessage := "";
      sent := BuildPayload();
      match outcome
      case Succeeded =>
        HandleReset();
      case Failed(error) =>
        errorMessage := SubmitErrors.Message(error);
    }
  }
}
