/** The root component `App`: its state hooks and the handlers that update them. */
module AppRoot {
  import opened Types
  import opened PostList
  import opened Routing

  /** Everything `App` keeps besides the post list. */
  datatype UiState = UiState(
    selectedPost: Option<Post>,
    isModalOpen: bool,
    isComposerOpen: bool,
    mobileMenuOpen: bool,
    viewMode: ViewMode)

  class App {
    /** `posts` / `setPosts`, shared with the admin panel and the composer. */
    const store: PostStore
    var selectedPost: Option<Post>
    var isModalOpen: bool
    var isComposerOpen: bool
    var mobileMenuOpen: bool
    var viewMode: ViewMode

    function Ui(): UiState
      reads this
    {
      UiState(selectedPost, isModalOpen, isComposerOpen, mobileMenuOpen, viewMode)
    }

    /**
     * In this model the detail modal is only open on a selected post. That holds because the
     * model leaves out the 300 ms timer with which closing the modal later clears the selection;
     * in the component a card clicked within that window is unselected again while its modal is
     * open, so the invariant is a property of the model, not of the component.
     */
    ghost predicate Valid()
      reads this
    {
      isModalOpen ==> selectedPost.Some?
    }

    /** Mounting: the seed posts, the public site, nothing selected, every overlay closed. */
    constructor(initial: seq<Post>)
      ensures Valid() && fresh(store)
      ensures store.posts == initial
      ensures Ui() == UiState(None, false, false, false, Public)
    {
      store := new PostStore(initial);
      selectedPost := None;
      isModalOpen := false;
      isComposerOpen := false;
      mobileMenuOpen := false;
      viewMode := Public;
    }

    /** `handlePostClick`: select the post and open its modal. */
    method HandlePostClick(p: Post)
      requires Valid()
      modifies this
      ensures Valid()
      ensures Ui() == old(Ui()).(selectedPost := Some(p), isModalOpen := true)
    {
      selectedPost := Some(p);
      isModalOpen := true;
    }

    /** `handleCloseModal`: close the modal at once; the selection stays until a deferred clear. */
    method HandleCloseModal()
      requires Valid()
      modifies this
      ensures Valid()
      ensures Ui() == old(Ui()).(isModalOpen := false)
    {
      isModalOpen := false;
    }

    /** `handlePostCreated`: the new post goes in front of the list. */
    method HandlePostCreated(p: Post)
      modifies store
      ensures store.posts == [p] + old(store.posts)
    {
      store.Prepend(p);
    }

    /** `scrollToSection`: when the section exists, the mobile menu closes. */
    method ScrollToSection(found: bool)
      requires Valid()
      modifies this
      ensures Valid()
      ensures Ui() == old(Ui()).(mobileMenuOpen := old(mobileMenuOpen) && !found)
    {
      if found {
        mobileMenuOpen := false;
      }
    }

    /** The header's menu button flips the mobile menu; two presses restore it. */
    method ToggleMobileMenu()
      requires Valid()
      modifies this
      ensures Valid()
      ensures Ui() == old(Ui()).(mobileMenuOpen := !old(mobileMenuOpen))
    {
      mobileMenuOpen := !mobileMenuOpen;
    }

    /** The "Hızlı Yaz" buttons open the composer. */
    method OpenComposer()
      requires Valid()
      modifies this
      ensures Valid()
      ensures Ui() == old(Ui()).(isComposerOpen := true)
    {
      isComposerOpen := true;
    }

    /** The mobile menu's composer button opens the composer and closes the menu. */
    method OpenComposerFromMenu()
      requires Valid()
      modifies this
      ensures Valid()
      ensures Ui() == old(Ui()).(isComposerOpen := true, mobileMenuOpen := false)
    {
      isComposerOpen := true;
      mobileMenuOpen := false;
    }

    /** The composer's `onClose`. */
    method CloseComposer()
      requires Valid()
      modifies this
      ensures Valid()
      ensures Ui() == old(Ui()).(isComposerOpen := false)
    {
      isComposerOpen := false;
    }

    /** Every `setViewMode` call: only the view mode changes, never the post list. */
    method Navigate(e: Nav)
      requires Valid()
      modifies this
      ensures Valid()
      ensures Ui() == old(Ui()).(viewMode := Next(old(viewMode), e))
      ensures store.posts == old(store.posts)
    {
      viewMode := Next(viewMode, e);
    }
  }
}
