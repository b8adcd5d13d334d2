/** The public site's "AI Asistan ile Yaz" dialog (`AIComposer`). */
module Composer {
  import opened Types
  import opened Text
  import opened AppRoot

  /** The notice shown when generation fails. */
  const GenerationError: string := "İçerik oluşturulurken bir hata oluştu. Lütfen tekrar deneyin."

  /** The post made from a generated draft: the draft's four fields verbatim, stamped by the app. */
  function GeneratedPost(draft: AIResponse, idClock: nat, date: string, imageClock: nat): (p: Post)
    ensures p.title == draft.title && p.content == draft.content && p.summary == draft.summary
    ensures p.tags == draft.tags
    ensures p.author == OwnerName && p.id == ClockId(idClock) && p.date == date
    ensures p.imageUrl == PlaceholderUrl(imageClock)
  {
    Post(ClockId(idClock), draft.title, draft.summary, draft.content, OwnerName, date,
         PlaceholderUrl(imageClock), draft.tags)
  }

  class AIComposer {
    /** The root component: `onPostCreated` is its `handlePostCreated`, `onClose` closes the dialog. */
    const app: App
    var topic: string
    var isGenerating: bool
    var error: Option<string>

    /** Handlers run to completion, so no generation is in flight between them. */
    ghost predicate Valid()
      reads this
    {
      !isGenerating
    }

    constructor(app: App)
      ensures Valid() && this.app == app
      ensures topic == "" && error == None
    {
      this.app := app;
      topic := "";
      isGenerating := false;
      error := None;
    }

    /** The topic box's `onChange`. */
    method SetTopic(text: string)
      modifies this
      ensures topic == text && isGenerating == old(isGenerating) && error == old(error)
    {
      topic := text;
    }

    /**
     * `handleGenerate`, which exists only while the dialog is open. A blank topic (white space only)
     * does nothing. Otherwise `outcome` is the settled `generateBlogContent(topic)`, `idClock` and
     * `imageClock` are the two `Date.now()` readings and `date` the formatted current date.
     * On success exactly one post reaches `onPostCreated`, then the topic is cleared and the dialog
     * closes; on failure no post is made, the topic stays and the fixed notice shows.
     */
    method HandleGenerate(outcome: Result<AIResponse>, idClock: nat, date: string, imageClock: nat)
      returns (created: Option<Post>)
      requires Valid() && app.Valid() && app.isComposerOpen
      modifies this, app, app.store
      ensures Valid() && app.Valid()
      ensures Trim(old(topic)) == [] ==>
                created == None && topic == old(topic) && error == old(error) &&
                app.Ui() == old(app.Ui()) && app.store.posts == old(app.store.posts)
      ensures Trim(old(topic)) != [] && outcome.Ok? ==>
                created == Some(GeneratedPost(outcome.value, idClock, date, imageClock)) &&
                app.store.posts == [created.value] + old(app.store.posts) &&
                topic == "" && error == None && app.Ui() == old(app.Ui()).(isComposerOpen := false)
      ensures Trim(old(topic)) != [] && outcome.Err? ==>
                created == None && app.store.posts == old(app.store.posts) &&
                topic == old(topic) && error == Some(GenerationError) && app.Ui() == old(app.Ui())
    {
      if Trim(topic) == [] {
        created := None;
      } else {
        created := Settle(outcome, idClock, date, imageClock);
      }
    }

    /**
     * What `handleGenerate` does once the topic is known not to be blank: the generator's settled
     * outcome either becomes exactly one new post in front of the list, after which the topic is
     * cleared and the dialog closes, or leaves the list alone and shows the fixed notice.
     */
    method Settle(outcome: Result<AIResponse>, idClock: nat, date: string, imageClock: nat)
      returns (created: Option<Post>)
      requires Valid() && app.Valid() && app.isComposerOpen
      modifies this, app, app.store
      ensures Valid() && app.Valid()
      ensures outcome.Ok? ==>
                created == Some(GeneratedPost(outcome.value, idClock, date, imageClock)) &&
                app.store.posts == [created.value] + old(app.store.posts) &&
                topic == "" && error == None && app.Ui() == old(app.Ui()).(isComposerOpen := false)
      ensures outcome.Err? ==>
                created == None && app.store.posts == old(app.store.posts) &&
                topic == old(topic) && error == Some(GenerationError) && app.Ui() == old(app.Ui())
    {
      created := None;
      isGenerating := true;
      error := None;
      if outcome.Ok? {
        var post := GeneratedPost(outcome.value, idClock, date, imageClock);
        app.HandlePostCreated(post);
        created := Some(post);
        topic := "";
        app.CloseComposer();
      } else {
        error := Some(GenerationError);
      }
      isGenerating := false;
    }
  }
}
