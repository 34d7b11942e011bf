/**
 * The comment side of a post card: the add-comment form and the local
 * comment list of `PostDetails`, the collapsed/expanded comment pane, the
 * post's three-dots menu, and the per-comment tools of `CommentBlock`.
 */
module Comments {
  import opened Common
  import opened Entities
  import Format
  import Text

  // ---------------------------------------------------------------------
  // PostDetails: local comment list and the add-comment form
  // ---------------------------------------------------------------------

  /** The add-comment form values; `post` is the id of the post commented on. */
  datatype CommentForm = CommentForm(content: string, post: string)

  /**
   * The comment state of one post card: the local list, the form, the
   * submitting flag, the validation message shown under the input, and
   * whether the comment section is open.
   */
  datatype CommentBox = CommentBox(
    comments: seq<Comment>,
    form: CommentForm,
    isSubmit: bool,
    formError: Option<string>,
    isOpen: bool)

  /** The message of the comment schema's only rule. */
  const CommentRequired: string := "add your comment"

  /**
   * A fresh card: the comments passed by the parent (none when absent), an
   * empty form for this post, and the section open exactly when the card is
   * the full single-post view.
   */
  function InitialCommentBox(postId: string, allComments: Option<seq<Comment>>, showAllComments: bool): (b: CommentBox)
    ensures allComments.Some? ==> b.comments == allComments.value
    ensures allComments.None? ==> b.comments == []
    ensures b.form == CommentForm("", postId) && !b.isSubmit && b.formError.None?
    ensures b.isOpen == showAllComments
  {
    CommentBox(allComments.GetOr([]), CommentForm("", postId), false, None, showAllComments)
  }

  /** When the parent passes a new comment list, it replaces the local one. */
  function SyncFromParent(box: CommentBox, allComments: Option<seq<Comment>>): (b: CommentBox)
    ensures allComments.Some? ==> b == box.(comments := allComments.value)
    ensures allComments.None? ==> b == box
  {
    match allComments
    case Some(cs) => box.(comments := cs)
    case None => box
  }

  /** The comment icon flips the section open or closed. */
  function ToggleComments(box: CommentBox): (b: CommentBox)
    ensures b.isOpen != box.isOpen && b == box.(isOpen := b.isOpen)
  {
    box.(isOpen := !box.isOpen)
  }

  /** The outcome of a submit: the new state, and the request body when one was sent. */
  datatype CommentStep = CommentStep(box: CommentBox, sent: Option<CommentForm>)

  /**
   * Submitting the form. Empty content fails the schema: the message is set
   * and no request is sent. Otherwise validation has passed, which clears the
   * message, and the form is posted; on success the server's full list
   * replaces the local one and the form is reset, on any failure the list and
   * the form stay as they were; `isSubmit` ends false.
   */
  function AddComment(box: CommentBox, postId: string, reply: Reply<seq<Comment>>): (r: CommentStep)
    ensures box.form.content == "" ==>
      && r.sent.None?
      && r.box == box.(formError := Some(CommentRequired))
    ensures box.form.content != "" ==>
      && r.sent == Some(box.form) && !r.box.isSubmit && r.box.isOpen == box.isOpen
      && r.box.formError.None?
    ensures box.form.content != "" && reply.Ok? ==>
      r.box.comments == reply.data && r.box.form == CommentForm("", postId)
    ensures box.form.content != "" && !reply.Ok? ==>
      r.box.comments == box.comments && r.box.form == box.form
  {
    if box.form.content == "" then
      CommentStep(box.(formError := Some(CommentRequired)), None)
    else
      var settled :=
        match reply
        case Ok(list) => box.(comments := list, form := CommentForm("", postId))
        case _ => box;
      CommentStep(settled.(isSubmit := false, formError := None), Some(box.form))
  }

  /**
   * A successful add does not merge: whatever the card held before, the
   * resulting list is the server's list.
   */
  lemma AddCommentReplacesList(box: CommentBox, other: seq<Comment>, postId: string, list: seq<Comment>)
    requires box.form.content != ""
    ensures AddComment(box, postId, Ok(list)).box == AddComment(box.(comments := other), postId, Ok(list)).box
    ensures AddComment(box, postId, Ok(list)).box.comments == list
  {
  }

  // ---------------------------------------------------------------------
  // PostDetails: what the comment pane shows
  // ---------------------------------------------------------------------

  /**
   * The comment pane: every comment in list order, the first comment with a
   * link to the full view, the "No comments yet." text, or nothing at all.
   */
  datatype CommentPane =
    | AllComments(shown: seq<Comment>)
    | FirstComment(first: Comment, viewAllLink: string)
    | NoCommentsYet
    | NothingShown

  /**
   * The pane is drawn only while the comment section is open; a closed
   * section shows nothing. Open, the full view lists every comment (and shows
   * nothing for an empty list); the short view of a feed card shows the first
   * comment and a link to `/singlepost/<postId>`, or "No comments yet." for
   * an empty list.
   */
  function CommentPaneFor(comments: seq<Comment>, isOpen: bool, showAllComments: bool, postId: string): (p: CommentPane)
    ensures !isOpen ==> p == NothingShown
    ensures isOpen && showAllComments && |comments| > 0 ==> p == AllComments(comments)
    ensures isOpen && showAllComments && |comments| == 0 ==> p == NothingShown
    ensures isOpen && !showAllComments && |comments| > 0 ==> p == FirstComment(comments[0], "/singlepost/" + postId)
    ensures isOpen && !showAllComments && |comments| == 0 ==> p == NoCommentsYet
  {
    if !isOpen then NothingShown
    else if showAllComments then
      if |comments| > 0 then AllComments(comments) else NothingShown
    else if |comments| > 0 then FirstComment(comments[0], "/singlepost/" + postId)
    else NoCommentsYet
  }

  /** The comments a pane puts on screen, in screen order. */
  function Shown(p: CommentPane): seq<Comment> {
    match p
    case AllComments(cs) => cs
    case FirstComment(c, _) => [c]
    case _ => []
  }

  /**
   * The pane shows a prefix of the local list: nothing while the section is
   * closed; once open, all of it in the full view, at most one comment in the
   * short view, and nothing only for an empty list.
   */
  lemma PaneShowsPrefix(comments: seq<Comment>, isOpen: bool, showAllComments: bool, postId: string)
    ensures var s := Shown(CommentPaneFor(comments, isOpen, showAllComments, postId));
      && s == comments[..|s|]
      && (!isOpen ==> s == [])
      && (isOpen && showAllComments ==> s == comments)
      && (isOpen && !showAllComments ==> |s| <= 1)
      && (isOpen ==> (s == [] <==> comments == []))
  {
  }

  /**
   * A feed card starts with its section closed and shows no comment; one
   * click on the comment icon shows the first comment and the link.
   */
  lemma FeedCardOpensOnToggle(postId: string, cs: seq<Comment>)
    ensures var b := InitialCommentBox(postId, Some(cs), false);
      CommentPaneFor(b.comments, b.isOpen, false, postId) == NothingShown
    ensures var b := ToggleComments(InitialCommentBox(postId, Some(cs), false));
      cs != [] ==> CommentPaneFor(b.comments, b.isOpen, false, postId) == FirstComment(cs[0], "/singlepost/" + postId)
  {
  }

  /**
   * The section header, drawn while the section is open: the count label as
   * the card writes it, followed by " comments".
   */
  function CommentsHeader(comments: seq<Comment>): (h: string)
    ensures |comments| < 1000 ==> h == Text.Decimal(|comments|) + " comments"
    ensures |comments| >= 1000 ==> h == Format.CountLabelAsWritten(|comments|) + " comments"
    ensures |h| >= |" comments"| && h[|h| - |" comments"|..] == " comments"
  {
    Format.CountLabelAsWritten(|comments|) + " " + "comments"
  }

  /** Below 10000 comments the header carries the intended count label. */
  lemma HeaderIntendedBelowTenThousand(comments: seq<Comment>)
    requires |comments| < 10000
    ensures CommentsHeader(comments) == Format.CountLabel(|comments|) + " comments"
  {
    if |comments| >= 1000 {
      Format.CountLabelAgreesOnFourDigits(|comments|);
    }
  }

  /** The avatar of a listed comment's author. */
  function CommentAvatar(c: Comment): (a: Format.Avatar)
    ensures a.PhotoAvatar? <==> !Text.Includes(c.creator.photo, "undefined")
    ensures a.PhotoAvatar? ==> a.url == c.creator.photo
    ensures a.InitialAvatar? ==> a.initial == c.creator.name[..if |c.creator.name| > 0 then 1 else 0]
  {
    Format.AvatarFor(c.creator.photo, c.creator.name)
  }

  // ---------------------------------------------------------------------
  // PostDetails: the post's three-dots menu
  // ---------------------------------------------------------------------

  datatype PostMenuChoice = DeletePostChoice | UpdatePostChoice

  /** The outcome of a menu choice: whether the menu stays open, and the post deletion started, if any. */
  datatype PostMenuStep = PostMenuStep(open: bool, deletes: Option<string>)

  /**
   * Either choice closes the menu; Delete starts the profile store's
   * `deletePost` for this card's post, Update only shows a "not implemented"
   * notice. The menu is offered on every card, whoever wrote the post.
   */
  function ChoosePostMenu(postId: string, choice: PostMenuChoice): (r: PostMenuStep)
    ensures !r.open
    ensures r.deletes.Some? <==> choice == DeletePostChoice
    ensures r.deletes.Some? ==> r.deletes.value == postId
  {
    match choice
    case DeletePostChoice => PostMenuStep(false, Some(postId))
    case UpdatePostChoice => PostMenuStep(false, None)
  }

  // ---------------------------------------------------------------------
  // CommentBlock: the per-comment tools
  // ---------------------------------------------------------------------

  /**
   * `openTools` holds the creator id the tools menu was opened for (`null`
   * when closed); `openEdit` tells whether the edit dialog is shown.
   */
  datatype CommentTools = CommentTools(openTools: Option<string>, openEdit: bool)

  /** The tools control is rendered only on the viewer's own comments. */
  predicate ShowsToolsControl(creatorId: string, userId: string) {
    creatorId == userId
  }

  /** The menu is visible while `openTools` is truthy. */
  predicate ToolsMenuShown(t: CommentTools) {
    Truthy(t.openTools)
  }

  /** Clicking the control (present only when shown) opens the menu for the creator. */
  function ClickToolsControl(t: CommentTools, creatorId: string, userId: string): (r: CommentTools)
    ensures ShowsToolsControl(creatorId, userId) ==> r == t.(openTools := Some(creatorId))
    ensures !ShowsToolsControl(creatorId, userId) ==> r == t
  {
    if ShowsToolsControl(creatorId, userId) then t.(openTools := Some(creatorId)) else t
  }

  /** From a closed menu, a click opens it exactly for the viewer's own comment with a non-empty id. */
  lemma ToolsOnlyForOwner(t: CommentTools, creatorId: string, userId: string)
    requires !ToolsMenuShown(t)
    ensures ToolsMenuShown(ClickToolsControl(t, creatorId, userId)) <==> creatorId == userId && creatorId != ""
  {
  }

  /** Choosing Delete closes the menu (the deletion itself is `DeleteComment`). */
  function ChooseDeleteComment(t: CommentTools): (r: CommentTools)
    ensures !ToolsMenuShown(r) && r.openEdit == t.openEdit
  {
    t.(openTools := None)
  }

  /** Choosing Update closes the menu and opens the edit dialog. */
  function ChooseUpdateComment(t: CommentTools): (r: CommentTools)
    ensures !ToolsMenuShown(r) && r.openEdit
  {
    CommentTools(None, true)
  }

  /** A mouse-down outside an open tools menu closes it; otherwise nothing changes. */
  function ToolsOutsideClick(t: CommentTools, insideMenu: bool): (r: CommentTools)
    ensures ToolsMenuShown(t) && !insideMenu ==> r == t.(openTools := None)
    ensures !ToolsMenuShown(t) || insideMenu ==> r == t
  {
    if !Truthy(t.openTools) then t
    else if !insideMenu then t.(openTools := None)
    else t
  }

  /** The outcome of a deletion: the card's comment list and whether the list was fetched again. */
  datatype DeleteOutcome = DeleteOutcome(comments: seq<Comment>, refetched: bool)

  /**
   * Deleting a comment: a successful delete fetches the post's comments
   * again and, when that succeeds, the fetched list replaces the local one;
   * a failed delete fetches nothing and a failed fetch changes nothing.
   */
  function DeleteComment(comments: seq<Comment>, deleteReply: Reply<()>, refetchReply: Reply<seq<Comment>>): (r: DeleteOutcome)
    ensures r.refetched <==> deleteReply.Ok?
    ensures deleteReply.Ok? && refetchReply.Ok? ==> r.comments == refetchReply.data
    ensures !deleteReply.Ok? || !refetchReply.Ok? ==> r.comments == comments
  {
    if !deleteReply.Ok? then DeleteOutcome(comments, false)
    else
      match refetchReply
      case Ok(list) => DeleteOutcome(list, true)
      case _ => DeleteOutcome(comments, true)
  }

  /** A failed delete leaves the list as it was and fetches nothing, whatever the fetch would have returned. */
  lemma FailedDeleteIsIdentity(comments: seq<Comment>, deleteReply: Reply<()>, refetchReply: Reply<seq<Comment>>)
    requires !deleteReply.Ok?
    ensures DeleteComment(comments, deleteReply, refetchReply) == DeleteOutcome(comments, false)
  {
  }

  /** After a delete and a successful fetch, the list is the server's whatever the card held before. */
  lemma RefetchReplacesList(a: seq<Comment>, b: seq<Comment>, list: seq<Comment>)
    ensures DeleteComment(a, Ok(()), Ok(list)) == DeleteComment(b, Ok(()), Ok(list))
    ensures DeleteComment(a, Ok(()), Ok(list)).comments == list
  {
  }
}
