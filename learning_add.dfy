/** The logic of `app/learning/add.tsx`: the checks in front of saving a lesson,
    the record saved, and the two "saving" flags that turn a repeated tap into a
    no-op. */
module LearningAdd {
  import opened Wrappers
  import opened Types
  import opened Text
  import opened DataContext
  import opened AuthContext

  datatype LearningError = MissingTitleOrDescription | MissingVideoUrl

  /** The checks of `handleSave`, in order: a lesson needs a title and a
      description that are not blank, and a video needs a link that is not blank;
      the first missing piece is the one reported. */
  function CheckLearning(title: string, description: string, kind: LearningKind, videoUrl: string): (r: Option<LearningError>)
    ensures r == Some(MissingTitleOrDescription) <==> IsBlank(title) || IsBlank(description)
    ensures r == Some(MissingVideoUrl) <==>
      !IsBlank(title) && !IsBlank(description) && kind == Video && IsBlank(videoUrl)
    ensures r.None? <==> !IsBlank(title) && !IsBlank(description) && (kind == Video ==> !IsBlank(videoUrl))
  {
    if Trim(title) == "" || Trim(description) == "" then Some(MissingTitleOrDescription)
    else if kind == Video && Trim(videoUrl) == "" then Some(MissingVideoUrl)
    else None
  }

  /** The object `handleSave` passes to `addLearningContent`: the text fields
      trimmed, the link only for a video, and the signed-in user's id as creator. */
  function NewLearningDraft(
    title: string, description: string, content: string, kind: LearningKind, videoUrl: string,
    user: Option<User>): (r: LearningDraft)
    ensures r.title == Trim(title) && r.description == Trim(description)
    ensures r.content == Some(Trim(content))
    ensures kind == Video ==> r.videoUrl == Some(Trim(videoUrl))
    ensures kind != Video ==> r.videoUrl == None
    ensures r.kind == kind && r.url == None && r.thumbnailUrl == None
    ensures r.createdBy == if user.Some? then user.value.id else ""
  {
    LearningDraft(
      Trim(title), Trim(description), Some(Trim(content)), kind, None,
      if kind == Video then Some(Trim(videoUrl)) else None,
      None,
      if user.Some? && user.value.id != "" then user.value.id else "")
  }

  /** A lesson that passes the checks is saved with a non-empty title and
      description free of surrounding white space, a non-empty link exactly
      when it is a video, no other link, and its author's id (or "" with nobody
      signed in). */
  lemma SavedLessonIsClean(
    title: string, description: string, content: string, kind: LearningKind, videoUrl: string,
    user: Option<User>)
    requires CheckLearning(title, description, kind, videoUrl).None?
    ensures var r := NewLearningDraft(title, description, content, kind, videoUrl, user);
      r.title != "" && IsTrimmed(r.title) && r.description != "" && IsTrimmed(r.description)
    ensures var r := NewLearningDraft(title, description, content, kind, videoUrl, user);
      (r.videoUrl.Some? <==> kind == Video) && (kind == Video ==> r.videoUrl.value != "")
    ensures var r := NewLearningDraft(title, description, content, kind, videoUrl, user);
      r.kind == kind && r.url.None? && r.thumbnailUrl.None?
    ensures var r := NewLearningDraft(title, description, content, kind, videoUrl, user);
      r.createdBy == if user.Some? then user.value.id else ""
  {
  }

  /** What one tap on the save button does. */
  datatype SaveOutcome = Ignored | Rejected(error: LearningError) | Saved(record: LearningDraft)

  class LearningForm {
    var title: string
    var description: string
    var content: string
    var videoUrl: string
    var kind: LearningKind
    var isSaving: bool
    var saveInProgress: bool

    constructor ()
      ensures title == "" && description == "" && content == "" && videoUrl == ""
      ensures kind == Video && !isSaving && !saveInProgress
    {
      title, description, content, videoUrl := "", "", "", "";
      kind, isSaving, saveInProgress := Video, false, false;
    }

    /** `handleSave` up to the call of `addLearningContent`: a tap while either flag
        is set is ignored; otherwise the checks run and, when they pass, both flags
        are raised and the record to save is returned. The form fields never change. */
    method BeginSave(user: Option<User>) returns (r: SaveOutcome)
      requires AdminGate(user)
      modifies this`isSaving, this`saveInProgress
      ensures old(isSaving || saveInProgress) ==> r == Ignored && unchanged(this)
      ensures !old(isSaving || saveInProgress) && old(CheckLearning(title, description, kind, videoUrl)).Some? ==>
        r == Rejected(old(CheckLearning(title, description, kind, videoUrl)).value) && unchanged(this)
      ensures !old(isSaving || saveInProgress) && old(CheckLearning(title, description, kind, videoUrl)).None? ==>
        r == Saved(old(NewLearningDraft(title, description, content, kind, videoUrl, user))) &&
        isSaving && saveInProgress
      ensures title == old(title) && description == old(description) && content == old(content)
      ensures videoUrl == old(videoUrl) && kind == old(kind)
    {
      if isSaving || saveInProgress {
        return Ignored;
      }
      var check := CheckLearning(title, description, kind, videoUrl);
      if check.Some? {
        return Rejected(check.value);
      }
      r := Saved(NewLearningDraft(title, description, content, kind, videoUrl, user));
      isSaving, saveInProgress := true, true;
    }

    /** The `finally` block: both flags are lowered. */
    method EndSave()
      modifies this`isSaving, this`saveInProgress
      ensures !isSaving && !saveInProgress
    {
      isSaving, saveInProgress := false, false;
    }

    /** The whole of `handleSave`; `id` is the `Date.now()` string of the provider
        and `now` its clock. A saved record is appended to the provider's list and
        the flags are lowered again; an ignored or rejected tap changes nothing. */
    method HandleSave(store: DataProvider, user: Option<User>, id: string, now: Instant) returns (r: SaveOutcome)
      requires AdminGate(user)
      modifies this`isSaving, this`saveInProgress, store
      ensures old(isSaving || saveInProgress) ==> r == Ignored
      ensures !old(isSaving || saveInProgress) ==> r != Ignored
      ensures !r.Saved? ==> unchanged(this) && unchanged(store)
      ensures r.Rejected? ==> Some(r.error) == old(CheckLearning(title, description, kind, videoUrl))
      ensures r.Saved? ==>
        old(CheckLearning(title, description, kind, videoUrl)).None? &&
        r.record == old(NewLearningDraft(title, description, content, kind, videoUrl, user)) &&
        store.learningContent == old(store.learningContent) + [LearningContent(id, r.record, now)] &&
        store.customers == old(store.customers) && store.meetings == old(store.meetings) &&
        store.isLoading == old(store.isLoading) && !isSaving && !saveInProgress
    {
      r := BeginSave(user);
      if r.Saved? {
        store.AddLearningContent(r.record, id, now);
        EndSave();
      }
    }
  }

  /** A second tap that arrives while the first save is still under way adds
      nothing: the list grows by the first tap's record only. */
  method DoubleTap(form: LearningForm, store: DataProvider, user: Option<User>, firstId: string, secondId: string, now: Instant)
    requires AdminGate(user) && !form.isSaving && !form.saveInProgress
    requires CheckLearning(form.title, form.description, form.kind, form.videoUrl).None?
    modifies form, store
    ensures store.learningContent == old(store.learningContent) + [LearningContent(firstId,
      old(NewLearningDraft(form.title, form.description, form.content, form.kind, form.videoUrl, user)), now)]
    ensures !form.isSaving && !form.saveInProgress
  {
    var first := form.BeginSave(user);
    var second := form.HandleSave(store, user, secondId, now);
    assert second == Ignored;
    store.AddLearningContent(first.record, firstId, now);
    form.EndSave();
  }
}
