/**
 * The three image-bearing forms: Add Post, the Edit Post dialog and Change
 * Photo. They share the 1.5 MiB file-size limit, the empty-post rule (the
 * two post forms) and the multipart payload shape.
 */
module PostForms {
  import opened Common
  import opened Entities
  import opened Text

  // ---------------------------------------------------------------------
  // Shared rules
  // ---------------------------------------------------------------------

  /** `1.5 * 1024 * 1024` bytes. */
  const MaxImageBytes: nat := 3 * 1024 * 1024 / 2

  /**
   * A chosen file is refused when it is strictly larger than the limit; the
   * source compares with the number `1.5 * 1024 * 1024`, which the integer
   * limit represents exactly.
   */
  predicate TooLarge(f: File)
    ensures TooLarge(f) <==> 2 * f.size > 3 * 1024 * 1024
  {
    f.size > MaxImageBytes
  }

  /** The limit is exactly 1572864 bytes: a file of that size is accepted, one byte more is refused. */
  lemma LimitBoundary(handle: string)
    ensures !TooLarge(File(1572864, handle))
    ensures TooLarge(File(1572865, handle))
  {
  }

  /** The values of a post form: the text and the chosen file (`null` when none). */
  datatype PostForm = PostForm(body: string, image: Option<File>)

  const EmptyPostForm: PostForm := PostForm("", None)

  /** The source's test `(!body || body.trim() === "") && !image`. */
  predicate IsEmptyPost(form: PostForm)
    ensures IsEmptyPost(form) <==> AllSpace(form.body) && form.image.None?
  {
    TrimEmptyIffAllSpace(form.body);
    (form.body == "" || Trim(form.body) == "") && form.image.None?
  }

  /** One multipart entry: a text value or a file. */
  datatype Part = TextPart(text: string) | FilePart(file: File)

  /** The `FormData` of a request: its entries in append order. */
  type Payload = seq<(string, Part)>

  /** The post payload: the body always, then the image only when one is chosen. */
  function PostPayload(form: PostForm): (p: Payload)
    ensures 1 <= |p| <= 2 && p[0] == ("body", TextPart(form.body))
    ensures |p| == 2 <==> form.image.Some?
    ensures |p| == 2 ==> p[1] == ("image", FilePart(form.image.value))
  {
    [("body", TextPart(form.body))] + if form.image.Some? then [("image", FilePart(form.image.value))] else []
  }

  /** A file input's selection: the form's file and the preview shown for it. */
  datatype Selection = Selection(chosen: Option<File>, preview: Option<File>)

  /**
   * Choosing a file: no file or a file over the limit leaves the form's
   * file and the preview as they were; otherwise the file becomes both.
   */
  function PickFile(sel: Selection, file: Option<File>): (r: Selection)
    ensures file.None? ==> r == sel
    ensures file.Some? && TooLarge(file.value) ==> r == sel
    ensures file.Some? && !TooLarge(file.value) ==> r == Selection(file, file)
  {
    match file
    case None => sel
    case Some(f) => if f.size > MaxImageBytes then sel else Selection(Some(f), Some(f))
  }

  /** What an image element shows: the object URL of a chosen file, or a remote URL. */
  datatype ImageSource = ObjectUrl(file: File) | RemoteUrl(url: Option<string>)

  // ---------------------------------------------------------------------
  // Add Post
  // ---------------------------------------------------------------------

  datatype AddPostState = AddPostState(form: PostForm, preview: Option<File>, apiError: Option<string>, isSubmit: bool)

  const AddPostInitial: AddPostState := AddPostState(EmptyPostForm, None, Some(""), false)

  /** The result of a submit: the new state and the payload when a request was sent. */
  datatype Step<S> = Step(state: S, sent: Option<Payload>)

  /**
   * Submitting Add Post. An empty post is refused with no request. Otherwise
   * the payload is posted: success resets the form and the preview and
   * clears the error; a server error shows its `error` field; with no
   * response the error handler itself fails and the message is kept.
   * `isSubmit` is false on every path.
   */
  function SubmitAddPost(s: AddPostState, reply: Reply<()>): (r: Step<AddPostState>)
    ensures !r.state.isSubmit
    ensures r.sent.Some? <==> !(AllSpace(s.form.body) && s.form.image.None?)
    ensures r.sent.None? ==> r.state == s.(isSubmit := false)
    ensures r.sent.Some? ==> r.sent.value == PostPayload(s.form)
    ensures r.sent.Some? && reply.Ok? ==> r.state == AddPostInitial
    ensures r.sent.Some? && reply.HttpError? ==> r.state == s.(apiError := reply.error, isSubmit := false)
    ensures r.sent.Some? && reply.NoResponse? ==> r.state == s.(isSubmit := false)
  {
    if IsEmptyPost(s.form) then Step(s.(isSubmit := false), None)
    else
      var settled :=
        match reply
        case Ok(_) => AddPostState(EmptyPostForm, None, Some(""), s.isSubmit)
        case HttpError(e) => s.(apiError := e)
        case NoResponse => s;
      Step(settled.(isSubmit := false), Some(PostPayload(s.form)))
  }

  /** Choosing a picture for the new post. */
  function PickAddPostImage(s: AddPostState, file: Option<File>): (r: AddPostState)
    ensures r.apiError == s.apiError && r.isSubmit == s.isSubmit && r.form.body == s.form.body
    ensures file.Some? && !TooLarge(file.value) ==> r.form.image == file && r.preview == file
    ensures file.None? || TooLarge(file.value) ==> r == s
  {
    var sel := PickFile(Selection(s.form.image, s.preview), file);
    s.(form := s.form.(image := sel.chosen), preview := sel.preview)
  }

  /** The trash button clears the preview only; the form keeps its file. */
  function RemoveAddPostPreview(s: AddPostState): (r: AddPostState)
    ensures r.preview.None? && r.form == s.form
    ensures r.apiError == s.apiError && r.isSubmit == s.isSubmit
  {
    s.(preview := None)
  }

  /** After removing the preview, a submit still uploads the chosen file. */
  lemma RemovedPreviewStillUploads(s: AddPostState, reply: Reply<()>)
    requires s.form.image.Some?
    ensures var r := SubmitAddPost(RemoveAddPostPreview(s), reply);
      r.sent.Some? && ("image", FilePart(s.form.image.value)) in r.sent.value
  {
    var p := PostPayload(s.form);
    assert p[1] in p;
  }

  // ---------------------------------------------------------------------
  // Edit Post dialog
  // ---------------------------------------------------------------------

  datatype EditState = EditState(form: PostForm, preview: Option<File>, apiError: Option<string>, isSubmit: bool, open: bool)

  /** The dialog opens on the post's current text (empty when it has none) and no file. */
  function InitialEdit(body: Option<string>): (s: EditState)
    ensures s.form.image.None? && s.preview.None? && s.open && !s.isSubmit
    ensures s.apiError == Some("")
    ensures Truthy(body) ==> s.form.body == body.value
    ensures !Truthy(body) ==> s.form.body == ""
  {
    EditState(PostForm(body.GetOr(""), None), None, Some(""), false, true)
  }

  /** The result of an edit: the new state, the payload sent, and whose posts the store reloads. */
  datatype EditStep = EditStep(state: EditState, sent: Option<Payload>, reloadPostsOf: Option<string>)

  /**
   * Submitting the dialog. The empty-post rule is Add Post's. On success the
   * form and preview are reset, the error cleared, the store reloads the
   * posts of `user` (the token's user) and the dialog closes; a server error
   * shows its message and the dialog stays open; `isSubmit` ends false.
   */
  function SubmitEdit(s: EditState, user: string, reply: Reply<()>): (r: EditStep)
    ensures !r.state.isSubmit
    ensures r.sent.Some? <==> !(AllSpace(s.form.body) && s.form.image.None?)
    ensures r.sent.None? ==> r.state == s.(isSubmit := false) && r.reloadPostsOf.None?
    ensures r.sent.Some? ==> r.sent.value == PostPayload(s.form)
    ensures r.sent.Some? && reply.Ok? ==>
      && r.state == EditState(EmptyPostForm, None, Some(""), false, false)
      && r.reloadPostsOf == Some(user)
    ensures r.sent.Some? && reply.HttpError? ==>
      r.state == s.(apiError := reply.error, isSubmit := false) && r.reloadPostsOf.None?
    ensures r.sent.Some? && reply.NoResponse? ==> r.state == s.(isSubmit := false) && r.reloadPostsOf.None?
  {
    if IsEmptyPost(s.form) then EditStep(s.(isSubmit := false), None, None)
    else
      match reply
      case Ok(_) => EditStep(EditState(EmptyPostForm, None, Some(""), false, false), Some(PostPayload(s.form)), Some(user))
      case HttpError(e) => EditStep(s.(apiError := e, isSubmit := false), Some(PostPayload(s.form)), None)
      case NoResponse => EditStep(s.(isSubmit := false), Some(PostPayload(s.form)), None)
  }

  /** An edit that reaches the server keeps the dialog open exactly when it fails. */
  lemma EditClosesOnlyOnSuccess(s: EditState, user: string, reply: Reply<()>)
    requires s.open
    requires !IsEmptyPost(s.form)
    ensures SubmitEdit(s, user, reply).state.open <==> !reply.Ok?
  {
  }

  /** Choosing a new picture for the post. */
  function PickEditImage(s: EditState, file: Option<File>): (r: EditState)
    ensures r.open == s.open && r.apiError == s.apiError && r.isSubmit == s.isSubmit && r.form.body == s.form.body
    ensures file.Some? && !TooLarge(file.value) ==> r.form.image == file && r.preview == file
    ensures file.None? || TooLarge(file.value) ==> r == s
  {
    var sel := PickFile(Selection(s.form.image, s.preview), file);
    s.(form := s.form.(image := sel.chosen), preview := sel.preview)
  }

  /** Unlike Add Post, the trash button also drops the form's file. */
  function RemoveEditPreview(s: EditState): (r: EditState)
    ensures r.preview.None? && r.form == PostForm(s.form.body, None)
    ensures r.open == s.open && r.apiError == s.apiError && r.isSubmit == s.isSubmit
  {
    s.(preview := None, form := s.form.(image := None))
  }

  /** The dialog's picture: the chosen file when there is one, else the post's current image. */
  function EditShownImage(s: EditState, postImage: Option<string>): (src: ImageSource)
    ensures s.preview.Some? ==> src == ObjectUrl(s.preview.value)
    ensures s.preview.None? ==> src == RemoteUrl(postImage)
  {
    if s.preview.Some? then ObjectUrl(s.preview.value) else RemoteUrl(postImage)
  }

  /** A mouse-down outside the open dialog closes it; one inside changes nothing. */
  function CloseEdit(s: EditState, insideDialog: bool): (r: EditState)
    ensures r == s.(open := s.open && insideDialog)
  {
    s.(open := OutsideMouseDown(s.open, insideDialog))
  }

  /** The close icon closes the dialog and leaves the form, preview, banner and submitting flag as they were. */
  function CloseEditIcon(s: EditState): (r: EditState)
    ensures !r.open
    ensures r.form == s.form && r.preview == s.preview && r.apiError == s.apiError && r.isSubmit == s.isSubmit
  {
    s.(open := false)
  }

  /**
   * The icon sits inside the dialog, so the mouse-down of its click leaves the
   * dialog open, and the click itself then closes it.
   */
  lemma IconClickCloses(s: EditState)
    requires s.open
    ensures CloseEdit(s, true) == s
    ensures var r := CloseEditIcon(CloseEdit(s, true)); !r.open && r.(open := true) == s
  {
  }

  // ---------------------------------------------------------------------
  // Change Photo
  // ---------------------------------------------------------------------

  /**
   * The Change Photo page: the form's file (`""` initially, so falsy), the
   * preview, the submitting flag and the profile data (`null` until loaded).
   */
  datatype PhotoState = PhotoState(photo: Option<File>, preview: Option<File>, isSubmit: bool, user: Option<User>)

  const PhotoInitial: PhotoState := PhotoState(None, None, false, None)

  /** The result of an upload: the new state, the payload sent, and whether the profile data is fetched again. */
  datatype PhotoStep = PhotoStep(state: PhotoState, sent: Option<Payload>, refetchProfile: bool)

  /**
   * Submitting Change Photo. Without a chosen file nothing is sent. Otherwise
   * the file is uploaded; success drops the preview and fetches the profile
   * data again (the form keeps its file); failure changes nothing else.
   * `isSubmit` ends false.
   */
  function SubmitPhoto(s: PhotoState, reply: Reply<()>): (r: PhotoStep)
    ensures !r.state.isSubmit
    ensures r.sent.Some? <==> s.photo.Some?
    ensures r.sent.Some? ==> r.sent.value == [("photo", FilePart(s.photo.value))]
    ensures r.refetchProfile <==> s.photo.Some? && reply.Ok?
    ensures r.refetchProfile ==> r.state == s.(preview := None, isSubmit := false)
    ensures !r.refetchProfile ==> r.state == s.(isSubmit := false)
  {
    match s.photo
    case None => PhotoStep(s.(isSubmit := false), None, false)
    case Some(f) =>
      var sent := Some([("photo", FilePart(f))]);
      if reply.Ok? then PhotoStep(s.(preview := None, isSubmit := false), sent, true)
      else PhotoStep(s.(isSubmit := false), sent, false)
  }

  /** A successful upload leaves the file in the form, so submitting again uploads it again. */
  lemma UploadKeepsFile(s: PhotoState, reply: Reply<()>, again: Reply<()>)
    requires s.photo.Some?
    ensures SubmitPhoto(SubmitPhoto(s, reply).state, again).sent == SubmitPhoto(s, reply).sent
  {
  }

  /** Choosing a new photo. */
  function PickPhoto(s: PhotoState, file: Option<File>): (r: PhotoState)
    ensures r.user == s.user && r.isSubmit == s.isSubmit
    ensures file.Some? && !TooLarge(file.value) ==> r.photo == file && r.preview == file
    ensures file.None? || TooLarge(file.value) ==> r == s
  {
    var sel := PickFile(Selection(s.photo, s.preview), file);
    s.(photo := sel.chosen, preview := sel.preview)
  }

  /** The trash button clears the preview only. */
  function RemovePhotoPreview(s: PhotoState): (r: PhotoState)
    ensures r.preview.None? && r.photo == s.photo && r.user == s.user && r.isSubmit == s.isSubmit
  {
    s.(preview := None)
  }

  /** The profile data arriving: success stores the user, failure changes nothing. */
  function ProfileDataLoaded(s: PhotoState, reply: Reply<User>): (r: PhotoState)
    ensures reply.Ok? ==> r == s.(user := Some(reply.data))
    ensures !reply.Ok? ==> r == s
  {
    if reply.Ok? then s.(user := Some(reply.data)) else s
  }

  /** The page: a loading indicator until the profile data is there, then the greeting and the picture. */
  datatype PhotoScreen = PhotoLoading | PhotoPage(greeting: string, shown: ImageSource)

  /** The picture is the chosen preview when there is one, otherwise the user's current photo. */
  function PhotoScreenFor(s: PhotoState): (p: PhotoScreen)
    ensures s.user.None? <==> p == PhotoLoading
    ensures s.user.Some? && s.preview.Some? ==> p.shown == ObjectUrl(s.preview.value)
    ensures s.user.Some? && s.preview.None? ==> p.shown == RemoteUrl(Some(s.user.value.photo))
  {
    match s.user
    case None => PhotoLoading
    case Some(u) =>
      PhotoPage("Hello, " + u.name, if s.preview.Some? then ObjectUrl(s.preview.value) else RemoteUrl(Some(u.photo)))
  }
}
