# Social feed client — a Dafny model

This project models the client-side logic of a small social-feed web
application written with React: the session token and the route guard, the
navigation bar, the Login, Register and Change-password forms, the Home and
Profile post lists, the profile post store, the post card (relative dates,
comment-count label, avatars, the comment pane, adding comments, the post
menu), the comment block (its tools menu and deleting a comment), and the Add
Post, Edit Post and Change Photo forms. No component in the source renders
the comment block or the Edit Post dialog; both are modelled as written.

Every React state change is a pure function from the component's state (and
the user's input) to the next state. HTTP requests are not performed: each
operation that awaits a request takes the request's outcome as an argument, a
`Common.Reply` that is a success with its data, an error status with the
server's `error` field, or no response at all. Where the source reads
`error.response.data.error` in a `catch` block and there is no response, that
read throws. The model then leaves the banner as it was, and the `finally`
block still clears the submitting flag.

Modules follow the source's structure:

- `Common`: optional values, request outcomes, JavaScript truthiness, and the outside-mouse-down rule of the pop-ups.
- `Text`: `trim`, `includes`, and decimal rendering with its parser.
- `Lists`: `reverse` and `filter`.
- `Entities`: the server's records.
- `Validators`: the Yup schemas and the password pattern.
- `Format`: `displayDate`, the count label, avatars.
- `Feed`: the Home and Profile screens.
- `ProfileStore`: the profile context.
- `Comments`: the post card and a comment block.
- `PostForms`: Add Post, Edit Post and Change Photo.
- `Session`: the user context, guard, navigation bar, Login and Change Password.
- `Registration`: the Register page.

Behaviours worth noting:

- The post menu offers Delete on every card, with no ownership check.
- An expanded comment pane with no comments shows nothing, not "No comments yet.".
- The Profile page shows "No posts to display." only for an empty list. A list whose posts all lack content shows an empty area.
- A successful login navigates to "/".
- After a successful photo upload the chosen file stays in the form.

## Model

| member | source | states |
|---|---|---|
| Common.OutsideMouseDown | src/Components/Navbar/Navbar.tsx:12-23 | an open pop-up closes exactly when the mouse-down lands outside it; a closed one stays closed (the same rule as PostDetails.tsx:61-75 and EditModal.tsx:37-48) |
| Text.TrimStart | src/Components/AddPost/AddPost.tsx:31 | the result is a suffix of the input, everything dropped is white space, and it does not start with white space |
| Text.TrimEnd | src/Components/AddPost/AddPost.tsx:31 | the result is a prefix of the input, everything dropped is white space, and it does not end with white space |
| Text.Trim | src/Components/AddPost/AddPost.tsx:31 | `trim` returns a slice of its input with only white space before and after it, and the slice neither starts nor ends with white space |
| Text.TrimEmptyIffAllSpace | src/Components/AddPost/AddPost.tsx:31 | `s.trim() === ""` holds exactly when every character of `s` is ECMAScript white space or a line terminator |
| Text.Includes | src/Components/PostDetails/CommentBlock.tsx:94 | `includes` is true exactly when the pattern occurs at some index |
| Text.Decimal | src/Components/PostDetails/PostDetails.tsx:18 | the rendering of a count is a non-empty run of digits without a leading zero |
| Text.DecimalRoundTrip | src/Components/PostDetails/PostDetails.tsx:18 | parsing the decimal rendering of `n` gives `n` back |
| Text.DecimalInjective | src/Components/PostDetails/PostDetails.tsx:234-239 | distinct counts render to distinct strings |
| Lists.Reverse | src/Context/ProfileContext.tsx:36 | the reversed list has the same length, and position `i` holds the element at `len-1-i` |
| Lists.ReverseInvolutive | src/Components/Profile/Profile.tsx:23 | reversing twice gives the list back |
| Lists.ReverseSameElements | src/Components/Profile/Profile.tsx:23 | reversal keeps exactly the same elements |
| Lists.Filter | src/Context/ProfileContext.tsx:52 | every element that passes the test survives as many times as it occurs, every other element is gone, and the result is an order-preserving subsequence of the input |
| Lists.FilterKeepsAll | src/Context/ProfileContext.tsx:52 | a test that every element passes returns the list itself |
| Lists.FilterDropsAll | src/Components/Home/Home.tsx:39-42 | a test no element passes returns the empty list |
| Lists.FilterAppend | src/Context/ProfileContext.tsx:52 | filtering a concatenation is concatenating the filtered parts |
| Lists.FilterReverse | src/Components/Profile/Profile.tsx:23-39 | filtering the reversed list gives the filtered list reversed |
| Lists.FilterIdempotent | src/Context/ProfileContext.tsx:52 | filtering twice with one test is filtering once |
| Validators.LookaheadOnDotRun | src/Components/Register/Register.tsx:23-28 | on a string without line terminators, each lookahead of the password pattern finds its class exactly when the string contains a character of it |
| Validators.MatchesPasswordPattern | src/Components/Register/Register.tsx:23-28 | a password the pattern accepts has at least 8 characters and holds an upper-case letter, a lower-case letter, a digit and a special character |
| Validators.PatternIsRule | src/Components/Register/Register.tsx:23-28 | the regular expression accepts exactly the passwords of 8 or more characters, without line terminators, holding an upper-case letter, a lower-case letter, a digit and one of `#?!@$%^&*-` |
| Validators.ShortPasswordRejected | src/Components/Register/Register.tsx:23-28 | every password shorter than 8 characters is refused |
| Validators.RegisterErrors | src/Components/Register/Register.tsx:13-41 | each field is reported invalid exactly when its rule fails: name length 3..30, email present, password rule, confirmation present and equal, birth date present and not in the future, gender male or female |
| Validators.RegisterAccepts | src/Components/Register/Register.tsx:13-41 | the form passes exactly when all six rules hold; the confirmation's own "required" rule is implied by the others |
| Validators.LoginValid | src/Components/Login/Login.tsx:17-28 | a login form passes exactly when the email is present and the password satisfies the password rule |
| Validators.ChangePassValid | src/Components/ChangePass/ChangePass.tsx:17-31 | the form passes exactly when both the new and the current password satisfy the password rule |
| Format.DisplayDate | src/Components/PostDetails/PostDetails.tsx:11-25 | under a minute "just now"; then floored minutes, hours (plural from 2) and days (plural from 2) up to 30 days; beyond that, or for an unparsable date, the locale date |
| Format.FloorSteps | src/Components/PostDetails/PostDetails.tsx:14-21 | flooring seconds, then minutes, hours and days step by step equals a single floor of the milliseconds |
| Format.FutureIsJustNow | src/Components/PostDetails/PostDetails.tsx:14-16 | a timestamp in the future reads "just now" |
| Format.MinuteLabelReadsBack | src/Components/PostDetails/PostDetails.tsx:17-18 | the number in a minute label parses back to the whole minutes elapsed |
| Format.CountLabelAsWritten | src/Components/PostDetails/PostDetails.tsx:234-239 | below 1000 the count; from 1000 on, always four characters: first digit, ".", second digit, "K" |
| Format.FourDigits | src/Components/PostDetails/PostDetails.tsx:234-239 | a four-digit count renders digit by digit |
| Format.CountLabelAsWrittenMisreads | src/Components/PostDetails/PostDetails.tsx:234-239 | 12345 comments are labelled "1.2K" as written, where "12.3K" is intended |
| Format.CountLabel | src/Components/PostDetails/PostDetails.tsx:234-239 | below 1000 the count; from 1000 on, a label ending in "." digit "K" |
| Format.CountLabelReadsBack | src/Components/PostDetails/PostDetails.tsx:234-239 | the corrected label, read back as thousands with one decimal, is the count truncated to hundreds |
| Format.CountLabelAgreesOnFourDigits | src/Components/PostDetails/PostDetails.tsx:234-239 | for 1000..9999 comments the written and the corrected label coincide |
| Format.AvatarFor | src/Components/PostDetails/PostDetails.tsx:251-261 | the photo is shown exactly when its URL does not contain "undefined"; otherwise the first character of the name, or nothing for an empty name |
| Format.UndefinedPhotoFallsBack | src/Components/PostDetails/PostDetails.tsx:286-298 | any URL with "undefined" inside falls back to the initial |
| Feed.CardsFor | src/Components/Home/Home.tsx:36-42 | exactly the posts with a truthy image or body get a card, each as many times as it occurs, in list order |
| Feed.HomeScreen | src/Components/Home/Home.tsx:26-42 | the error wins over loading; otherwise the cards of the server list, or none for a missing list |
| Feed.ProfileScreen | src/Components/Profile/Profile.tsx:23-57 | loading wins over the error; a non-empty list gives the cards of its reverse; a missing or empty list gives "No posts to display." |
| Feed.PrecedenceDiffers | src/Components/Profile/Profile.tsx:26-32 | with both flags set, Home shows the error and Profile the loading indicator |
| Feed.PrecedenceAgreesWhenExclusive | src/Components/Home/Home.tsx:26-33 | with at most one flag set, both pages agree on error and loading |
| Feed.ProfileMirrorsHome | src/Components/Profile/Profile.tsx:23-53 | for the same non-empty list, Profile shows exactly Home's cards in reverse order |
| Feed.ProfileAllSkippedIsBlank | src/Components/Profile/Profile.tsx:36-58 | a non-empty list of posts without content shows neither a card nor the "No posts" text |
| Feed.ProfileUserAsWritten | src/Components/Profile/Profile.tsx:10-12 | a null or empty context token makes the decode throw; a non-empty one is decoded |
| Feed.ReloadedProfileThrows | src/Components/Profile/Profile.tsx:10-12 | right after a reload with a stored token, the guard admits the page and its first render throws |
| Feed.ReloadedProfileGuardedDecode | src/Components/Profile/Profile.tsx:10-12 | on the same reload, a decode of truthy tokens only names nobody on the first render and the stored token's user once the mount effect has run |
| Feed.TokenUserGuardsProfileDecode | src/Components/Profile/Profile.tsx:10-12 | the page throws exactly where the guarded decode names nobody, and agrees with it everywhere else |
| ProfileStore.LoadUserPosts | src/Context/ProfileContext.tsx:27-37 | on success the store holds the server list in reverse order; a failure leaves the store as it was |
| ProfileStore.LoadedPostsReverseBack | src/Context/ProfileContext.tsx:36 | reversing the stored list gives the server's order back |
| ProfileStore.DeletePost | src/Context/ProfileContext.tsx:39-55 | on success exactly the posts whose id differs from the returned post's id remain, each as many times as it occurred, in order; a failure or an unloaded store changes nothing |
| ProfileStore.DeleteIgnoresArgument | src/Context/ProfileContext.tsx:48-52 | which posts are removed depends on the server's answer, not on the id passed in |
| ProfileStore.DeleteWithoutMatchKeepsStore | src/Context/ProfileContext.tsx:52 | when no stored post carries the returned id, the store is unchanged |
| ProfileStore.DeleteIdempotent | src/Context/ProfileContext.tsx:49-54 | applying the same successful deletion twice is the same as once |
| Comments.InitialCommentBox | src/Components/PostDetails/PostDetails.tsx:53-55 | the card starts with the passed comments (none when absent), an empty form for this post, and the section open exactly when all comments are to be shown |
| Comments.SyncFromParent | src/Components/PostDetails/PostDetails.tsx:76-80 | a passed comment list replaces the local one; an absent one changes nothing |
| Comments.ToggleComments | src/Components/PostDetails/PostDetails.tsx:184 | the icon flips the section and changes nothing else |
| Comments.AddComment | src/Components/PostDetails/PostDetails.tsx:82-116 | empty content sends nothing, shows "add your comment" and changes nothing else; otherwise validation has cleared the message, the form is posted and the section stays as it was; success replaces the list with the server's and resets the form; failure keeps the list and the form; the submitting flag ends false |
| Comments.AddCommentReplacesList | src/Components/PostDetails/PostDetails.tsx:109 | after a successful add, the list is the server's list whatever the card held before |
| Comments.CommentPaneFor | src/Components/PostDetails/PostDetails.tsx:189-326 | a closed section shows nothing; open, the full view shows every comment, or nothing for none, and a feed card's short view shows the first comment with a link to `/singlepost/<id>`, or "No comments yet." |
| Comments.PaneShowsPrefix | src/Components/PostDetails/PostDetails.tsx:189-326 | the pane shows a prefix of the list: nothing while the section is closed; once open, all of it in the full view, at most one comment in the short view, and nothing only for an empty list |
| Comments.FeedCardOpensOnToggle | src/Components/PostDetails/PostDetails.tsx:53-55 | a feed card starts closed and shows no comment; one click on the comment icon shows the first comment and the link |
| Comments.CommentsHeader | src/Components/PostDetails/PostDetails.tsx:233-241 | below 1000 the header is the count followed by " comments"; from 1000 on it is the count label as written (first digit, ".", second digit, "K") followed by " comments" |
| Comments.HeaderIntendedBelowTenThousand | src/Components/PostDetails/PostDetails.tsx:234-239 | below 10000 comments the header carries the intended thousands label |
| Comments.CommentAvatar | src/Components/PostDetails/CommentBlock.tsx:94-104 | the author's photo URL is shown exactly when it does not contain "undefined"; otherwise the first character of the author's name, or nothing for an empty name |
| Comments.ChoosePostMenu | src/Components/PostDetails/PostDetails.tsx:145-164 | either choice closes the menu; exactly Delete starts the deletion of this post |
| Comments.ClickToolsControl | src/Components/PostDetails/CommentBlock.tsx:113-120 | the control exists only on the viewer's own comments; clicking it opens the menu for the creator |
| Comments.ToolsOnlyForOwner | src/Components/PostDetails/CommentBlock.tsx:113-126 | from a closed menu, a click shows it exactly when the comment is the viewer's and its creator id is non-empty |
| Comments.ChooseDeleteComment | src/Components/PostDetails/CommentBlock.tsx:130-134 | Delete closes the menu and leaves the edit dialog as it was |
| Comments.ChooseUpdateComment | src/Components/PostDetails/CommentBlock.tsx:139-143 | Update closes the menu and opens the edit dialog |
| Comments.ToolsOutsideClick | src/Components/PostDetails/CommentBlock.tsx:39-53 | a mouse-down outside an open tools menu closes it; otherwise nothing changes |
| Comments.DeleteComment | src/Components/PostDetails/CommentBlock.tsx:55-86 | the list is fetched again exactly when the deletion succeeds, and replaced only when that fetch succeeds too |
| Comments.FailedDeleteIsIdentity | src/Components/PostDetails/CommentBlock.tsx:55-86 | a failed delete fetches nothing and leaves the list as it was, whatever the fetch would have returned |
| Comments.RefetchReplacesList | src/Components/PostDetails/CommentBlock.tsx:55-86 | after a delete and a successful fetch the list is the fetched one, whatever the card held before |
| PostForms.TooLarge | src/Components/AddPost/AddPost.tsx:121 | a file is refused exactly when its size exceeds 1.5 MiB, that is when twice the size exceeds 3 MiB |
| PostForms.LimitBoundary | src/Components/AddPost/AddPost.tsx:121 | a file of 1572864 bytes is accepted and one of 1572865 bytes is refused |
| PostForms.IsEmptyPost | src/Components/AddPost/AddPost.tsx:31 | a post is refused as empty exactly when it has no image and its text is white space only |
| PostForms.PostPayload | src/Components/AddPost/AddPost.tsx:38-42 | the request holds the body first, then the image exactly when one is chosen |
| PostForms.PickFile | src/Components/AddPost/AddPost.tsx:117-133 | no file or a file above the limit changes nothing; an accepted file becomes both the form's file and the preview |
| PostForms.SubmitAddPost | src/Components/AddPost/AddPost.tsx:28-66 | a request is sent exactly when the post is not empty, with the payload of the form; success resets everything, an error status shows its message, no response keeps the banner; the submitting flag ends false |
| PostForms.PickAddPostImage | src/Components/AddPost/AddPost.tsx:117-133 | an accepted file becomes the form's image and the preview; otherwise nothing changes; the text, banner and submitting flag are never touched |
| PostForms.RemoveAddPostPreview | src/Components/AddPost/AddPost.tsx:143-146 | the preview is cleared; the form, banner and submitting flag are unchanged |
| PostForms.RemovedPreviewStillUploads | src/Components/AddPost/AddPost.tsx:143-146 | after the preview is removed, a submit still uploads the chosen file |
| PostForms.InitialEdit | src/Components/PostDetails/EditModal.tsx:30-33 | the dialog opens on the post's text (empty when it has none), no file and no preview, a blank banner and no submit in progress |
| PostForms.SubmitEdit | src/Components/PostDetails/EditModal.tsx:61-101 | same emptiness rule and payload as Add Post; success resets the form, reloads the user's posts and closes the dialog; failure keeps it open |
| PostForms.EditClosesOnlyOnSuccess | src/Components/PostDetails/EditModal.tsx:87-97 | for a non-empty post, the dialog stays open exactly when the request fails |
| PostForms.PickEditImage | src/Components/PostDetails/EditModal.tsx:158-174 | an accepted file becomes the form's image and the preview; otherwise nothing changes; the text, banner, submitting flag and open dialog are never touched |
| PostForms.RemoveEditPreview | src/Components/PostDetails/EditModal.tsx:184-188 | the preview and the form's file are both cleared; the text, banner, submitting flag and dialog are unchanged |
| PostForms.EditShownImage | src/Components/PostDetails/EditModal.tsx:221 | the dialog shows the chosen file when there is one, else the post's image |
| PostForms.CloseEdit | src/Components/PostDetails/EditModal.tsx:37-48 | the dialog closes on a mouse-down outside it; a mouse-down inside changes nothing; nothing else changes |
| PostForms.CloseEditIcon | src/Components/PostDetails/EditModal.tsx:114-119 | the close icon closes the dialog and leaves the form, preview, banner and submitting flag as they were |
| PostForms.IconClickCloses | src/Components/PostDetails/EditModal.tsx:37-48 | the icon's mouse-down lands inside the dialog and changes nothing, and its click then closes the dialog |
| PostForms.SubmitPhoto | src/Components/ChangePhoto/ChangePhoto.tsx:30-64 | a request is sent exactly when a photo is chosen; the profile is fetched again exactly on success, which also clears the preview; the submitting flag ends false |
| PostForms.UploadKeepsFile | src/Components/ChangePhoto/ChangePhoto.tsx:53-58 | after an upload the form still holds the file, so a second submit uploads it again |
| PostForms.PickPhoto | src/Components/ChangePhoto/ChangePhoto.tsx:112-128 | an accepted file becomes the form's photo and the preview; otherwise nothing changes |
| PostForms.RemovePhotoPreview | src/Components/ChangePhoto/ChangePhoto.tsx:137-142 | the preview is cleared; the chosen photo, the user and the submitting flag are unchanged |
| PostForms.ProfileDataLoaded | src/Components/ChangePhoto/ChangePhoto.tsx:66-76 | a successful fetch stores the user; a failed one changes nothing |
| PostForms.PhotoScreenFor | src/Components/ChangePhoto/ChangePhoto.tsx:85-98 | loading until the user is known; then the preview when one is chosen, else the user's photo |
| Session.Boot | src/Context/UserContext.tsx:20 | the context starts without a token, whatever storage holds |
| Session.SetToken | src/Context/UserContext.tsx:29 | `setToken` replaces the context token with the given value and leaves storage untouched |
| Session.Mount | src/Context/UserContext.tsx:22-26 | a truthy stored token becomes the context token; otherwise the context is left alone; storage is untouched |
| Session.MountAdoptsStored | src/Context/UserContext.tsx:20-26 | after mounting, the context token is the stored one if that is non-empty and null otherwise, and the two copies are consistent |
| Session.BootIsInconsistent | src/Context/UserContext.tsx:20 | before the mount effect, a stored token and the null context token disagree |
| Session.Guard | src/Components/Protected/Protected.tsx:4-7 | the page renders exactly when storage holds a non-empty token; otherwise the app redirects to /login |
| Session.GuardIgnoresContext | src/Components/Protected/Protected.tsx:5 | the guard's decision does not depend on the context token |
| Session.NavLinks | src/Components/Navbar/Navbar.tsx:42-83 | a truthy token shows Add Post, Profile, Settings and Log out; otherwise exactly Login and Register |
| Session.GuardAgreesWithNavbar | src/Components/Navbar/Navbar.tsx:63 | in a consistent session the guard admits exactly when the bar offers Log out |
| Session.LogOut | src/Components/Navbar/Navbar.tsx:25-29 | the context token becomes null, the stored token "", and the app goes to /login |
| Session.LogOutSignsOut | src/Components/Navbar/Navbar.tsx:25-29 | after logging out, the session is consistent, the guard redirects and the bar offers Login and Register |
| Session.ToggleMenu | src/Components/Navbar/Navbar.tsx:157-160 | the menu buttons flip the mobile menu |
| Session.MobileLogOut | src/Components/Navbar/Navbar.tsx:125-130 | the mobile Log out flips the menu and logs out |
| Session.Login | src/Components/Login/Login.tsx:40-57 | an invalid form sends nothing; success stores the server's token in both copies, clears the banner and goes to "/"; an error status shows its message and keeps the session; no response keeps banner and session; the submitting flag ends false |
| Session.ChangePassword | src/Components/ChangePass/ChangePass.tsx:43-65 | an invalid form sends nothing; success signs out (null token, stored "") and goes to /login; failures as for Login |
| Session.ChangePasswordIsLogOut | src/Components/ChangePass/ChangePass.tsx:55-59 | a successful password change leaves the same session and destination as Log out |
| Session.TransitionsKeepConsistent | src/Context/UserContext.tsx:22-26 | mounting, logging in, changing the password and logging out all keep the two token copies consistent |
| Session.LoginSignsIn | src/Components/Login/Login.tsx:47-51 | after a successful login with a non-empty token the guard admits and the bar offers Log out |
| Session.TokenUser | src/Context/ProfileContext.tsx:57-63 | a user is decoded exactly when the token is truthy |
| Session.AdmittedSessionHasUser | src/Components/Protected/Protected.tsx:5 | whenever the guard admits a consistent session, the context token names a user |
| Registration.Register | src/Components/Register/Register.tsx:52-79 | an invalid form sends nothing; otherwise the form is posted as is; success clears the banner and goes to /login; an error status shows the server's message or "Something went wrong"; no usable reply shows the network message; the submitting flag ends false |
| Registration.SignupBannerBlankIffAccepted | src/Components/Register/Register.tsx:66-75 | after a posted form the banner is empty exactly when the signup succeeded, and only then does the app navigate |
| Registration.SignupPostsOnlyValidForms | src/Components/Register/Register.tsx:90-94 | a form is posted exactly when all six field rules hold |

## Left out

- Rendering (JSX, class names, icons, toasts, alert dialogs, console output) is not modelled; only the state it is drawn from is.
- The HTTP requests, their URLs and headers are not modelled. Each awaited request's outcome is an argument. A `fetch` reply whose body is not JSON is treated as no response, as the source's `catch` does.
- `jwtDecode` is a function parameter returning the token's `user` field. It decodes well-formed tokens only, except that the empty token is modelled as throwing.
- The clock and `toLocaleDateString` are parameters of `Format.DisplayDate`: the elapsed milliseconds and the locale text.
- Validators.LoginValid: the `email()` format check of Yup is not modelled, so the email rule is weaker than the source's. Registration's email rule has the same gap. The choice among Yup's messages is not modelled either.
- Validators.RegisterErrors: the `email()` format check of Yup is not modelled, so the email rule only requires a non-empty email, weaker than the source's.
- Validators.RegisterErrors: the birth date is a day number, and date parsing is left to the caller.
- String lengths are counted in Dafny characters, not UTF-16 code units, so names outside the Basic Multilingual Plane count differently.
- React Query's `isLoading` and `isError` are free flags, so their mutual exclusion is not assumed. `Feed.PrecedenceDiffers` states what happens when both are set.
- `select` reverses the query cache's array in place. The model treats it as a pure reversal.
- A submit while `isSubmit` is true is collapsed: each handler is one step from a settled state to the next.
- The trash buttons in the forms have no `type="button"`, so clicking one can also submit the form. This implicit submit is not modelled.
- Object URLs are not modelled. A preview is the chosen `File` itself.
- DOM event listeners and `ref` containment are reduced to a boolean saying whether the mouse-down was inside the pop-up.
- The order in which the hamburger's click and the outside mouse-down reach the mobile menu is not modelled.
- The comment edit dialog, the single-post page, the settings page and the app's routes are outside the model.
- `EditModal` decodes `token \|\| ""` on every render without a guard. No component in the source renders `EditModal`, so that decode is unreachable here and is not modelled.
- CommentBlock's relative date comes from its own `displayDate` module, which is not part of this model.
- Concurrency between overlapping requests is not modelled.

## Findings

| source | as written | input that shows it | evidently intended | confidence | as-written member | corrected member |
|---|---|---|---|---|---|---|
| src/Components/PostDetails/PostDetails.tsx:234-239 | from 1000 comments on, the label is the first digit, ".", the second digit and "K", whatever the number of digits | 12345 comments are labelled "1.2K" | the count in thousands with one decimal, "12.3K" | high, not executed | Format.CountLabelAsWrittenMisreads | Format.CountLabelReadsBack |
| src/Components/Profile/Profile.tsx:10-12 | the page decodes `token ?? ""` on every render; `??` keeps "" and the context token is still null on the first render after a reload | reloading /profile with a stored token: the guard reads storage and admits, the context token is null, and `jwtDecode("")` throws during render | decode only a truthy token, as the profile store's effect does | medium, not executed | Feed.ReloadedProfileThrows | Feed.ReloadedProfileGuardedDecode |
