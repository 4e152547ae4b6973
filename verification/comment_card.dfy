/** components/comments/CommentCard.tsx: one comment, with the owner's
    actions menu and the in-place editor.

    The comment's author id and the viewer's id are fixed for the card. The
    comment's text changes when the comment list is fetched again after a
    successful update: the card keeps its instance (it is keyed by the
    comment id) and receives the stored text. The menu flag, the editing
    flag and the editor's text change as the handlers run. Whether the
    update call succeeds is a parameter. */
module CommentCard {
  import opened Js

  /** What Save asks the server to store for an editor text: nothing when
      the trimmed text is the comment as it stands, the trimmed text
      otherwise. */
  function SaveRequest(editContent: string, original: string): (r: Option<string>)
    ensures r.Some? ==> r.value != original
    ensures r.Some? ==> r.value == [] || (!IsJsWhitespace(r.value[0]) && !IsJsWhitespace(r.value[|r.value| - 1]))
  {
    if Trim(editContent) == original then None else Some(Trim(editContent))
  }

  /** The Save button: disabled while the text trims to nothing or is,
      untrimmed, the comment as it stands. */
  function SaveDisabled(editContent: string, original: string): (r: bool)
    ensures !r <==> !IsBlank(editContent) && editContent != original
  {
    TrimEmptyIffBlank(editContent);
    Trim(editContent) == [] || editContent == original
  }

  /** An enabled Save that sends something sends text that is not blank. */
  lemma EnabledSaveSendsText(editContent: string, original: string)
    requires !SaveDisabled(editContent, original) && SaveRequest(editContent, original).Some?
    ensures !IsBlank(SaveRequest(editContent, original).value)
  {
    TrimEmptyIffBlank(editContent);
  }

  /** The two checks disagree: Save compares the untrimmed text, the
      handler the trimmed one. Adding a trailing space to a comment enables
      Save, yet saving sends nothing and just closes the editor. */
  lemma TrailingSpaceEnablesSaveButSendsNothing(original: string)
    requires original != [] && !IsJsWhitespace(original[0]) && !IsJsWhitespace(original[|original| - 1])
    ensures !SaveDisabled(original + " ", original)
    ensures SaveRequest(original + " ", original) == None
  {
    var e := original + " ";
    assert e[..|e| - 1] == original;
    assert TrimEnd(e) == original;
    TrimOfTrimmed(original);
    assert Trim(e) == original;
  }

  class Card {
    /** `comment.content`, as the comment list last delivered it. */
    var content: string
    const authorId: string
    const currentUserId: Option<string>
    var showActions: bool
    var isEditing: bool
    var editContent: string

    /** `currentUserId === comment.authorId._id`: a viewer without an id
        owns no comment. */
    predicate IsOwner()
      ensures IsOwner() ==> currentUserId.Some? && currentUserId.value == authorId
      ensures currentUserId.None? ==> !IsOwner()
    {
      currentUserId == Some(authorId)
    }

    constructor (content: string, authorId: string, currentUserId: Option<string>)
      ensures this.content == content && this.authorId == authorId && this.currentUserId == currentUserId
      ensures !showActions && !isEditing && editContent == content
    {
      this.content := content;
      this.authorId := authorId;
      this.currentUserId := currentUserId;
      showActions := false;
      isEditing := false;
      editContent := content;
    }

    /** The menu button, rendered for the owner only, flips the menu. */
    method ToggleActions()
      modifies this
      ensures showActions == (if IsOwner() then !old(showActions) else old(showActions))
      ensures isEditing == old(isEditing) && editContent == old(editContent) && content == old(content)
    {
      if IsOwner() {
        showActions := !showActions;
      }
    }

    /** `handleEdit()`: open the editor on the comment as it stands and
        close the menu. */
    method HandleEdit()
      modifies this
      ensures isEditing && editContent == content && !showActions && content == old(content)
    {
      isEditing := true;
      editContent := content;
      showActions := false;
    }

    /** The editor's `onChange`. */
    method EditChange(value: string)
      modifies this
      ensures editContent == value
      ensures isEditing == old(isEditing) && showActions == old(showActions) && content == old(content)
    {
      editContent := value;
    }

    /** `handleSaveEdit()`, where `updateOk` says whether the update call
        succeeds. Returns what was sent. With nothing to send the editor
        closes; after a send it closes on success and stays open on
        failure. The editor's text is left as it was. */
    method HandleSaveEdit(updateOk: bool) returns (sent: Option<string>)
      modifies this
      ensures sent == SaveRequest(old(editContent), content)
      ensures isEditing == (old(isEditing) && sent.Some? && !updateOk)
      ensures editContent == old(editContent) && showActions == old(showActions) && content == old(content)
    {
      if Trim(editContent) == content {
        isEditing := false;
        return None;
      }
      sent := Some(Trim(editContent));
      if updateOk {
        isEditing := false;
      }
    }

    /** `handleCancelEdit()`: drop the edit and close the editor. */
    method HandleCancelEdit()
      modifies this
      ensures editContent == content && !isEditing && showActions == old(showActions) && content == old(content)
    {
      editContent := content;
      isEditing := false;
    }

    /** The comment list is fetched again (a successful update invalidates
        it) and the same card receives the comment's stored text. Only the
        prop changes: the menu, the editing flag and the editor's text keep
        their state. */
    method OnCommentRefetched(newContent: string)
      modifies this
      ensures content == newContent
      ensures showActions == old(showActions) && isEditing == old(isEditing) && editContent == old(editContent)
    {
      content := newContent;
    }
  }

  /** A successful save followed by the refetch makes the saved text the
      comment: editing again starts from it, and Save stays disabled until
      the text is changed. */
  method SavedTextBecomesTheComment(original: string, authorId: string, typed: string)
    returns (sent: Option<string>, editContent: string, saveDisabled: bool)
    requires Trim(typed) != original
    ensures sent == Some(Trim(typed))
    ensures editContent == Trim(typed) && saveDisabled
  {
    var card := new Card(original, authorId, Some(authorId));
    card.HandleEdit();
    card.EditChange(typed);
    sent := card.HandleSaveEdit(true);
    card.OnCommentRefetched(sent.value);
    card.HandleEdit();
    editContent := card.editContent;
    saveDisabled := SaveDisabled(card.editContent, card.content);
  }

  /** Editing then cancelling puts the card back as it was built, whatever
      was typed in between. */
  method EditThenCancel(content: string, authorId: string, typed: string) returns (isEditing: bool, editContent: string)
    ensures !isEditing && editContent == content
  {
    var card := new Card(content, authorId, Some(authorId));
    card.ToggleActions();
    card.HandleEdit();
    card.EditChange(typed);
    card.HandleCancelEdit();
    isEditing, editContent := card.isEditing, card.editContent;
  }

  /** A failed update keeps the editor open with the text the user typed,
      so Save can be pressed again. */
  method FailedSaveKeepsEditing(content: string, authorId: string, typed: string) returns (sent: Option<string>, isEditing: bool, editContent: string)
    requires Trim(typed) != content
    ensures sent == Some(Trim(typed)) && isEditing && editContent == typed
  {
    var card := new Card(content, authorId, Some(authorId));
    card.HandleEdit();
    card.EditChange(typed);
    sent := card.HandleSaveEdit(false);
    isEditing, editContent := card.isEditing, card.editContent;
  }
}
