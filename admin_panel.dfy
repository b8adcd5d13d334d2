/** The admin panel (`AdminPanel`): post management, the manual editor and its AI draft helper. */
module Admin {
  import opened Types
  import opened Text
  import opened Filters
  import opened PostList
  import opened Routing
  import opened AppRoot

  datatype Tab = Dashboard | Posts | New

  /** The four inputs of the manual editor. */
  datatype Field = Title | Content | Summary | Image

  /** The editor's contents. */
  datatype Draft = Draft(title: string, content: string, summary: string, image: string)

  const EmptyDraft: Draft := Draft("", "", "", "")

  class AdminPanel {
    /** The root component whose `posts`, `setPosts`, `onLogout` and `onViewSite` the panel receives. */
    const app: App
    var activeTab: Tab
    var searchTerm: string
    var newPostTitle: string
    var newPostContent: string
    var newPostSummary: string
    var newPostImage: string
    var aiLoading: bool
    var aiTopic: string

    function Editor(): Draft
      reads this
    {
      Draft(newPostTitle, newPostContent, newPostSummary, newPostImage)
    }

    /** Handlers run to completion, so no generation is ever in flight between them. */
    ghost predicate Valid()
      reads this
    {
      !aiLoading
    }

    /** Mounting: the dashboard, an empty search, an empty editor, no AI topic. */
    constructor(app: App)
      ensures Valid() && this.app == app
      ensures activeTab == Dashboard && searchTerm == "" && Editor() == EmptyDraft && aiTopic == ""
    {
      this.app := app;
      activeTab := Dashboard;
      searchTerm := "";
      newPostTitle, newPostContent, newPostSummary, newPostImage := "", "", "", "";
      aiLoading := false;
      aiTopic := "";
    }

    method SetActiveTab(t: Tab)
      modifies this
      ensures activeTab == t
      ensures searchTerm == old(searchTerm) && Editor() == old(Editor())
      ensures aiLoading == old(aiLoading) && aiTopic == old(aiTopic)
    {
      activeTab := t;
    }

    method SetSearchTerm(term: string)
      modifies this
      ensures searchTerm == term
      ensures activeTab == old(activeTab) && Editor() == old(Editor())
      ensures aiLoading == old(aiLoading) && aiTopic == old(aiTopic)
    {
      searchTerm := term;
    }

    method SetAiTopic(topic: string)
      modifies this
      ensures aiTopic == topic
      ensures activeTab == old(activeTab) && searchTerm == old(searchTerm) && Editor() == old(Editor())
      ensures aiLoading == old(aiLoading)
    {
      aiTopic := topic;
    }

    /** An editor input's `onChange`: that field takes the new text, the others stay. */
    method Edit(f: Field, text: string)
      modifies this
      ensures Editor() == match f
        case Title => old(Editor()).(title := text)
        case Content => old(Editor()).(content := text)
        case Summary => old(Editor()).(summary := text)
        case Image => old(Editor()).(image := text)
      ensures activeTab == old(activeTab) && searchTerm == old(searchTerm)
      ensures aiLoading == old(aiLoading) && aiTopic == old(aiTopic)
    {
      match f
      case Title => newPostTitle := text;
      case Content => newPostContent := text;
      case Summary => newPostSummary := text;
      case Image => newPostImage := text;
    }

    /** `handleDelete`: when the confirmation is accepted, every post with this id leaves the list. */
    method HandleDelete(id: string, confirmed: bool)
      modifies app.store
      ensures app.store.posts == if confirmed then WithoutId(old(app.store.posts), id) else old(app.store.posts)
    {
      if confirmed {
        app.store.RemoveId(id);
      }
    }

    /**
     * `handleManualSubmit`, reached only when the browser lets the form submit: the three `required`
     * inputs are non-empty. `idClock` and `imageClock` are the two `Date.now()` readings, `date` the
     * formatted current date.
     */
    method HandleManualSubmit(idClock: nat, date: string, imageClock: nat) returns (post: Post)
      requires newPostTitle != "" && newPostSummary != "" && newPostContent != ""
      modifies this, app.store
      ensures app.store.posts == [post] + old(app.store.posts)
      ensures post.title == old(newPostTitle) && post.content == old(newPostContent)
      ensures post.summary == old(newPostSummary)
      ensures post.tags == [GeneralTag] && post.author == OwnerName
      ensures post.id == ClockId(idClock) && post.date == date
      ensures post.imageUrl == if old(newPostImage) != "" then old(newPostImage) else PlaceholderUrl(imageClock)
      ensures post.imageUrl != "" && post.title != "" && post.summary != "" && post.content != ""
      ensures Editor() == EmptyDraft && activeTab == Posts
      ensures searchTerm == old(searchTerm) && aiLoading == old(aiLoading) && aiTopic == old(aiTopic)
    {
      post := Post(ClockId(idClock), newPostTitle, newPostSummary, newPostContent, OwnerName, date,
                   if newPostImage != "" then newPostImage else PlaceholderUrl(imageClock), [GeneralTag]);
      app.store.Prepend(post);
      activeTab := Posts;
      ResetForm();
    }

    /**
     * `handleAIGenerate`: an empty topic (not trimmed) does nothing; otherwise `outcome` is the settled
     * `generateBlogContent(aiTopic)`. A draft fills title, content and summary and clears the topic; a
     * failure leaves everything as it was. The loading flag is down again afterwards either way.
     */
    method HandleAIGenerate(outcome: Result<AIResponse>)
      requires Valid()
      modifies this
      ensures Valid()
      ensures old(aiTopic) == "" || outcome.Err? ==> Editor() == old(Editor()) && aiTopic == old(aiTopic)
      ensures old(aiTopic) != "" && outcome.Ok? ==>
                Editor() == old(Editor()).(title := outcome.value.title, content := outcome.value.content,
                                           summary := outcome.value.summary)
                && aiTopic == ""
      ensures activeTab == old(activeTab) && searchTerm == old(searchTerm)
    {
      if aiTopic == "" {
        return;
      }
      aiLoading := true;
      if outcome.Ok? {
        newPostTitle := outcome.value.title;
        newPostContent := outcome.value.content;
        newPostSummary := outcome.value.summary;
        aiTopic := "";
      }
      aiLoading := false;
    }

    /** `resetForm`: all four editor inputs empty. */
    method ResetForm()
      modifies this
      ensures Editor() == EmptyDraft
      ensures activeTab == old(activeTab) && searchTerm == old(searchTerm)
      ensures aiLoading == old(aiLoading) && aiTopic == old(aiTopic)
    {
      newPostTitle := "";
      newPostContent := "";
      newPostSummary := "";
      newPostImage := "";
    }

    /** `filteredPosts`: the posts table under the search box, with the case mapping `lower` left abstract. */
    function FilteredPosts(lower: string -> string): (r: seq<Post>)
      reads this, app.store
      ensures forall i :: 0 <= i < |r| ==> Includes(lower(r[i].title), lower(searchTerm))
      ensures forall p :: p in app.store.posts && Includes(lower(p.title), lower(searchTerm)) ==> p in r
      ensures forall p :: multiset(r)[p] ==
                if Includes(lower(p.title), lower(searchTerm)) then multiset(app.store.posts)[p] else 0
      ensures IsSubsequence(r, app.store.posts)
      ensures searchTerm == "" && lower([]) == [] ==> r == app.store.posts
    {
      var posts := app.store.posts;
      SearchKeepsOrder(posts, searchTerm, lower);
      FilterMemberAll(posts, TitleHas(searchTerm, lower));
      FilterCountAll(posts, TitleHas(searchTerm, lower));
      var r := MatchingTitle(posts, searchTerm, lower);
      assert searchTerm == "" && lower([]) == [] ==> r == posts by {
        if searchTerm == "" && lower([]) == [] {
          EmptySearchListsAll(posts, lower);
        }
      }
      r
    }

    /** The dashboard's "Son Eklenen Yazılar": the newest three posts, in list order. */
    function RecentPosts(): (r: seq<Post>)
      reads app.store
      ensures r <= app.store.posts && |r| <= 3
      ensures |app.store.posts| >= 3 ==> |r| == 3
      ensures |app.store.posts| < 3 ==> r == app.store.posts
    {
      Recent(app.store.posts)
    }

    /** The sidebar's "Çıkış Yap" button. */
    method Logout()
      requires app.Valid()
      modifies app
      ensures app.Valid()
      ensures app.Ui() == old(app.Ui()).(viewMode := Next(old(app.viewMode), Nav.Logout))
    {
      app.Navigate(Nav.Logout);
    }

    /** The sidebar's "Siteyi Görüntüle" button. */
    method ViewSite()
      requires app.Valid()
      modifies app
      ensures app.Valid()
      ensures app.Ui() == old(app.Ui()).(viewMode := Next(old(app.viewMode), Nav.ViewSite))
    {
      app.Navigate(Nav.ViewSite);
    }
  }
}
