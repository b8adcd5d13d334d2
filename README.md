# Portfolio site: post list, admin gate and post-creation handlers

A Dafny model of the state handling inside the React components of a personal
portfolio site with a blog. The site keeps one in-memory list of blog posts,
newest first. The root component `App` owns the list. The admin panel can
delete posts, search them by title and write new ones. The public site's AI
composer turns a generated draft into a post. A view mode (`public`, `login`,
`admin`) decides which screen shows. The admin view is reachable only through
a login form that compares the typed password with a fixed string.

Modules, one per source file or shared concern:

- `Types` (`types.dfy`): the `Post` and `AIResponse` records, the settled-promise `Result`, and the fixed values the two post-creating handlers stamp on a post. Both stamp the owner as author and the id from a clock reading. Only manual posts get the `Genel` tag. AI posts always get the placeholder picture URL, and manual posts get it only when no image URL was entered.
- `Filters` (`filters.dfy`): `Array.prototype.filter` on sequences. It proves that filtering only deletes, keeps order, keeps multiplicities and distributes over concatenation.
- `Text` (`text.dfy`): `String.prototype.includes`, `String.prototype.trim` with ECMAScript's white-space set, and the decimal text of a clock reading with its read-back.
- `PostList` (`post_list.dfy`): the shared `PostStore` object, plus the three list views the admin panel derives from it: delete by id, title search and the three newest posts.
- `Routing` (`routing.dfy`): the view-mode machine of `App`.
- `AppRoot` (`app.dfy`): class `App` with its state hooks and handlers.
- `Session` (`session.dfy`): the password check and the login form's state, and the view-mode machine composed with them as a pure transition function `Step` over visitor actions. It carries the proof that the admin view is entered only by submitting the exact password on the login view.
- `LoginForm` (`admin_login.dfy`): class `AdminLogin`, the password gate. `App` mounts it only on the login view, so its handlers require that mode, and each handler moves the view and the form exactly as `Session.Step` does for the same action.
- `Admin` (`admin_panel.dfy`): class `AdminPanel`.
- `Composer` (`ai_composer.dfy`): class `AIComposer`.

Outside inputs are method parameters:

- The outcome of the content generator is a `Result<AIResponse>`.
- Each `Date.now()` reading is a `nat`.
- The formatted date is a `string`.
- The answer to `confirm()` is a `bool`.
- Lowercasing is a function parameter `lower`.

The post list is a single `PostStore` object. `App` holds it as `store`. The admin panel and the composer reach it through their `app` reference. This models `setPosts` being handed down and `onPostCreated` being wired to `handlePostCreated`.

New posts go in front of the list (`[newPost, ...posts]`).

## Model

| member | source | states |
|---|---|---|
| Types.ClockId | components/AdminPanel.tsx:47 | the id is non-empty decimal digits, without a leading zero, that read back as the clock reading |
| Types.PlaceholderUrl | components/AdminPanel.tsx:54 | the placeholder is the fixed picsum prefix followed by decimal digits, without a leading zero, that read back as the clock reading |
| Types.ClockIdsDistinct | components/AIComposer.tsx:30 | posts created at different clock readings get different ids |
| Filters.Filter | components/AdminPanel.tsx:40 | the result is no longer than the input and every element of it passes the test |
| Filters.FilterIsSubsequence | components/AdminPanel.tsx:85-87 | the filtered list is an order-preserving sublist of the input |
| Filters.FilterCount | components/AdminPanel.tsx:40 | a passing value occurs as often as in the input; a failing value does not occur |
| Filters.FilterMember | components/AdminPanel.tsx:85-87 | a value is in the result iff it is in the input and passes the test |
| Filters.FilterAppend | components/AdminPanel.tsx:40 | filtering a concatenation is the concatenation of the filtered parts |
| Filters.FilterKeepsAll | components/AdminPanel.tsx:40 | when every element passes, the list comes back equal |
| Filters.FilterIdempotent | components/AdminPanel.tsx:40 | filtering twice with the same test equals filtering once |
| Text.Includes | components/AdminPanel.tsx:86 | a needle that is a prefix (the empty needle included) is found; a found needle is no longer than the haystack |
| Text.IncludesFindsOccurrence | components/AdminPanel.tsx:86 | when `includes` succeeds, the needle really occurs at the returned index |
| Text.OccurrenceIsIncluded | components/AdminPanel.tsx:86 | `includes` never misses an occurrence |
| Text.IncludesIffOccurs | components/AdminPanel.tsx:86 | `includes` holds iff the needle occurs at some index |
| Text.IncludesEmpty | components/AdminPanel.tsx:86 | the empty string is included in every string |
| Text.IsJsSpace | components/AIComposer.tsx:21 | tab, line feed, carriage return and space are white space; digits and ASCII letters are not |
| Text.TrimStart | components/AIComposer.tsx:21 | the result is a suffix of the input that does not start with white space, and everything dropped is white space |
| Text.TrimEnd | components/AIComposer.tsx:21 | the result is a prefix of the input that does not end with white space, and everything dropped is white space |
| Text.TrimStartEmptyIffBlank | components/AIComposer.tsx:21 | stripping leading white space leaves nothing iff the string is all white space |
| Text.TrimEndKeepsFirst | components/AIComposer.tsx:21 | a string starting with a non-space character keeps a character through trailing trimming |
| Text.Trim | components/AIComposer.tsx:21 | the result is a stretch of the input with only white space outside it; `!topic.trim()` holds iff the topic is empty or all white space; a non-empty result neither starts nor ends with white space |
| Text.Decimal | components/AdminPanel.tsx:47 | the decimal text is non-empty digits without a leading zero |
| Text.DecimalRound | components/AdminPanel.tsx:47 | reading back the decimal text of n gives n |
| PostList.PostStore.constructor | App.tsx:26 | the list starts as the seed posts |
| PostList.PostStore.Prepend | App.tsx:45-47 | the new list is the post followed by the old list: one longer, the post at index 0, the old list after it |
| PostList.PostStore.RemoveId | components/AdminPanel.tsx:40 | the new list is the old one without the id; no survivor has the id; the survivors are an ordered sublist |
| PostList.WithoutId | components/AdminPanel.tsx:40 | no post left carries the id, and the survivors are an order-preserving sublist |
| PostList.DeleteRemovesEveryMatch | components/AdminPanel.tsx:40 | every post carrying the deleted id is gone, duplicates included |
| PostList.DeleteKeepsOthers | components/AdminPanel.tsx:40 | every post with another id survives unchanged, with its multiplicity |
| PostList.DeleteKeepsOrder | components/AdminPanel.tsx:40 | deletion distributes over concatenation, so the survivors keep their relative order |
| PostList.DeleteAbsentId | components/AdminPanel.tsx:40 | deleting an id no post carries leaves the list equal |
| PostList.DeleteUndoesPrepend | components/AdminPanel.tsx:56 | deleting a just-prepended post whose id is new restores the previous list |
| PostList.MatchingTitle | components/AdminPanel.tsx:85-87 | every listed post's lowered title contains the lowered term, and the list is an order-preserving sublist |
| PostList.SearchFinds | components/AdminPanel.tsx:85-87 | a post is listed iff it is in the list and its lowered title contains the lowered term |
| PostList.SearchKeepsOrder | components/AdminPanel.tsx:85-87 | the search result is an order-preserving sublist of the posts |
| PostList.EmptySearchListsAll | components/AdminPanel.tsx:85-87 | an empty search term lists every post |
| PostList.Recent | components/AdminPanel.tsx:173 | the recent list is a prefix of the posts of length min(3, number of posts) |
| PostList.RecentAfterPrepend | components/AdminPanel.tsx:173 | after a prepend, the new post heads the recent list and the older recent posts follow, less the last |
| Routing.Next | App.tsx:63-76 | admin is entered only from login by `onLogin`; login only from public by the footer button; back, logout and view-site lead to public; public never goes straight to admin |
| AppRoot.App.constructor | App.tsx:26-33 | seed posts, public mode, nothing selected, modal, composer and mobile menu closed |
| AppRoot.App.HandlePostClick | App.tsx:35-38 | selects the post and opens the modal; nothing else changes |
| AppRoot.App.HandleCloseModal | App.tsx:40-43 | closes the modal and keeps the selection; nothing else changes |
| AppRoot.App.HandlePostCreated | App.tsx:45-47 | the post list becomes the new post followed by the old list |
| AppRoot.App.ScrollToSection | App.tsx:49-55 | closes the mobile menu when the section exists, else changes nothing |
| AppRoot.App.ToggleMobileMenu | App.tsx:113 | flips the mobile-menu flag, so two presses restore it; nothing else changes |
| AppRoot.App.OpenComposer | App.tsx:101 | opens the composer; nothing else changes |
| AppRoot.App.OpenComposerFromMenu | App.tsx:127 | opens the composer and closes the mobile menu |
| AppRoot.App.CloseComposer | App.tsx:391 | closes the composer; nothing else changes |
| AppRoot.App.Navigate | App.tsx:63-76 | the mode becomes `Next(old mode, control)`; the other state and the post list are unchanged |
| Session.Accepts | components/AdminLogin.tsx:16 | an accepted password is eight characters with no white space and no capital letter |
| Session.VariantsRejected | components/AdminLogin.tsx:16 | `admin123` is accepted; case and white-space variants and the empty string are refused |
| LoginForm.AdminLogin.constructor | components/AdminLogin.tsx:10-11 | the password starts empty and no error shows |
| LoginForm.AdminLogin.Change | components/AdminLogin.tsx:40-43 | editing stores the new text and clears the error, which is `Session.Step` on typing |
| LoginForm.AdminLogin.Submit | components/AdminLogin.tsx:13-21 | accepted iff the password equals `admin123`; view and form move as `Session.Step` on submitting; the app changes only in its mode and the post list is untouched |
| LoginForm.AdminLogin.Back | components/AdminLogin.tsx:62-64 | calls only `onBack`: view and form move as `Session.Step` on the back button, to the public site |
| Session.Step | components/AdminLogin.tsx:13-21 | one action enters admin only by submitting the exact password on the login view; a wrong password keeps the login view with the error; entering login starts a fresh form |
| Session.AdminOnlyThroughPassword | App.tsx:63-76 | any action sequence that reaches admin contains a submission of the exact password made on the login view |
| Session.NoPasswordNoAdmin | components/AdminLogin.tsx:16-17 | from the start, a visitor who never submits does not reach admin |
| Session.TypedPasswordDecides | components/AdminLogin.tsx:13-21 | on the login view, typing p and submitting reaches admin iff p is `admin123` |
| Session.AdminReachable | App.tsx:373 | footer button, the password and submit do reach admin |
| Admin.AdminPanel.constructor | components/AdminPanel.tsx:27-36 | dashboard tab, empty search, empty editor, no AI topic, not loading |
| Admin.AdminPanel.SetActiveTab | components/AdminPanel.tsx:102 | sets the tab; nothing else changes |
| Admin.AdminPanel.SetSearchTerm | components/AdminPanel.tsx:204 | sets the search term; nothing else changes |
| Admin.AdminPanel.SetAiTopic | components/AdminPanel.tsx:267 | sets the AI topic; nothing else changes |
| Admin.AdminPanel.Edit | components/AdminPanel.tsx:286-323 | the edited field takes the new text; the other fields stay |
| Admin.AdminPanel.HandleDelete | components/AdminPanel.tsx:38-42 | confirmed: the list loses every post with the id; unconfirmed: the list is unchanged |
| Admin.AdminPanel.HandleManualSubmit | components/AdminPanel.tsx:44-60 | prepends exactly one post with the form's title, content and summary, tags `['Genel']`, the owner as author; the image is the entered URL if non-empty, else the placeholder; the new post's title, summary and content are non-empty; afterwards the editor is empty and the tab is `posts` |
| Admin.AdminPanel.HandleAIGenerate | components/AdminPanel.tsx:62-76 | an empty topic changes nothing; success overwrites title, content and summary and clears the topic; failure changes nothing; not loading afterwards |
| Admin.AdminPanel.ResetForm | components/AdminPanel.tsx:78-83 | empties the four editor fields; nothing else changes |
| Admin.AdminPanel.FilteredPosts | components/AdminPanel.tsx:85-87 | every listed post matches; every matching post is listed; order is kept; an empty term lists all posts; each listed post occurs as often as in the full list |
| Admin.AdminPanel.RecentPosts | components/AdminPanel.tsx:173 | a prefix of the posts, three long when there are at least three, else all of them |
| Admin.AdminPanel.Logout | components/AdminPanel.tsx:129 | the app's mode moves by the logout control |
| Admin.AdminPanel.ViewSite | components/AdminPanel.tsx:125 | the app's mode moves by the view-site control |
| Composer.GeneratedPost | components/AIComposer.tsx:28-38 | title, content, summary and tags are the draft's, unchecked; the author is the owner; id and image come from the clock |
| Composer.AIComposer.constructor | components/AIComposer.tsx:14-16 | empty topic, not generating, no error |
| Composer.AIComposer.SetTopic | components/AIComposer.tsx:79 | sets the topic; nothing else changes |
| Composer.AIComposer.HandleGenerate | components/AIComposer.tsx:20-48 | a blank topic changes nothing; success creates exactly one post from the draft, prepends it, clears the topic and closes the dialog; failure creates nothing, keeps the topic and sets the fixed notice; not generating afterwards |
| Composer.AIComposer.Settle | components/AIComposer.tsx:23-47 | past the blank check: success puts exactly one post built from the draft in front of the list, clears the topic and closes the dialog; failure leaves the list and the topic and shows the fixed notice |

## Left out

- The content generator (`services/geminiService.ts`) is not part of this model. Its call to a hosted model, the API-key lookup and the JSON parsing are replaced by the `Result<AIResponse>` outcome given to the handlers.
- The clock and the locale are parameters. `Date.now()` is a natural number and `toLocaleDateString('tr-TR', …)` is a string. The decimal text models `toString` of integers below 10^21, which covers every clock reading.
- `confirm` is a boolean parameter. `alert` has no effect on state and is left out.
- Scrolling (`scrollIntoView`, `window.scrollTo`) is left out. `ScrollToSection` takes whether the section exists as a parameter.
- The deferred `setSelectedPost(null)` that `handleCloseModal` schedules with a 300 ms timer is left out. In the model the selection stays until the next post click.
- AppRoot.App.Valid: the invariant that the modal is open only on a selected post holds only because that timer is left out. In the component, a card clicked within 300 ms of closing the modal is unselected when the timer fires, so the modal is open with no post (it renders nothing while the scroll lock stays).
- `toLowerCase` is the function parameter `lower`. JavaScript's Unicode case mapping is not modelled. The empty-term property assumes `lower` maps the empty string to itself.
- Strings are sequences of Unicode scalar values, not UTF-16 code units.
- Rendering is left out: JSX, CSS, `PostModal`, `BlogCard` and the dashboard's static figures.
- `constants.ts` is seed data and is not part of this model. `App`'s constructor takes the seed posts as a parameter.
- `async`/`await` interleaving, double submissions and React's batched state updates are left out. Each handler runs as one atomic method.
- Mounting and unmounting of components is modelled only in `Session`, where entering the login view starts a fresh form. The classes do not model the admin panel's or the composer's state being discarded when the view changes.
- HandleManualSubmit: the requirement that title, summary and content are non-empty stands for the form's `required` inputs, which the browser checks before `onSubmit` runs. Browser constraint validation itself is not modelled.
- The password is a constant. Nothing is claimed about its security.
- Navigation controls used in a mode where they are not rendered change nothing in `Routing.Next`.
- HandleGenerate: the in-flight state, with `isGenerating` true and the error cleared while the generator is awaited, is not observable in an atomic method. Only the state after the handler settles is stated.
- Settle: likewise, only the state after the generator's outcome is handled is stated.
- HandleAIGenerate: likewise, the in-flight `aiLoading == true` state is not stated. Only the state after the handler settles is.
