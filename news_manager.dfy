// The news management screen (src/components/NewsManager.tsx): the article
// list with its status filter, the create and edit dialogs, and deletion.

module NewsManager {
  import opened Wrappers
  import opened Text
  import opened Seqs
  import opened Kinds

  datatype NewsArticle = NewsArticle(
    id: string,
    title: string,
    content: string,
    markdownContent: string,
    excerpt: string,
    author: string,
    category: string,
    status: ArticleStatus,
    publishDate: string,
    views: int,
    likes: int,
    comments: int,
    tags: seq<string>,
    featured: bool)

  /** A `Partial<NewsArticle>`: a field that is `None` is absent from the object. */
  datatype ArticlePatch = ArticlePatch(
    id: Option<string>,
    title: Option<string>,
    content: Option<string>,
    markdownContent: Option<string>,
    excerpt: Option<string>,
    author: Option<string>,
    category: Option<string>,
    status: Option<ArticleStatus>,
    publishDate: Option<string>,
    views: Option<int>,
    likes: Option<int>,
    comments: Option<int>,
    tags: Option<seq<string>>,
    featured: Option<bool>)

  /** The create dialog's form; every key is present in every form the screen builds. */
  datatype NewArticleForm = NewArticleForm(
    title: string,
    content: string,
    markdownContent: string,
    excerpt: string,
    author: string,
    category: string,
    status: ArticleStatus,
    tags: seq<string>,
    featured: bool)

  /** An empty excerpt is replaced by this many leading characters of the body ... */
  const ExcerptLength: nat := 100
  /** ... followed by this ellipsis. */
  const Ellipsis := "..."

  const EmptyPatch := ArticlePatch(None, None, None, None, None, None, None, None, None, None, None, None, None, None)

  /** The create form when the screen opens and after every successful create. */
  const BlankForm := NewArticleForm("", "", "", "", "Администратор", "Общее", Draft, [], false)

  // ---------------------------------------------------------------- records

  /** `{ ...a, ...patch }`: every field present in the patch wins, every absent one is kept. */
  function Merge(a: NewsArticle, patch: ArticlePatch): (r: NewsArticle)
    // Fields present in the patch win.
    ensures (patch.id.Some? ==> r.id == patch.id.value) &&
      (patch.title.Some? ==> r.title == patch.title.value) &&
      (patch.content.Some? ==> r.content == patch.content.value) &&
      (patch.markdownContent.Some? ==> r.markdownContent == patch.markdownContent.value) &&
      (patch.excerpt.Some? ==> r.excerpt == patch.excerpt.value) &&
      (patch.author.Some? ==> r.author == patch.author.value) &&
      (patch.category.Some? ==> r.category == patch.category.value) &&
      (patch.status.Some? ==> r.status == patch.status.value) &&
      (patch.publishDate.Some? ==> r.publishDate == patch.publishDate.value) &&
      (patch.views.Some? ==> r.views == patch.views.value) &&
      (patch.likes.Some? ==> r.likes == patch.likes.value) &&
      (patch.comments.Some? ==> r.comments == patch.comments.value) &&
      (patch.tags.Some? ==> r.tags == patch.tags.value) &&
      (patch.featured.Some? ==> r.featured == patch.featured.value)
    // Fields absent from the patch are kept.
    ensures (patch.id.None? ==> r.id == a.id) && (patch.title.None? ==> r.title == a.title) &&
      (patch.content.None? ==> r.content == a.content) &&
      (patch.markdownContent.None? ==> r.markdownContent == a.markdownContent) &&
      (patch.excerpt.None? ==> r.excerpt == a.excerpt) && (patch.author.None? ==> r.author == a.author) &&
      (patch.category.None? ==> r.category == a.category) && (patch.status.None? ==> r.status == a.status) &&
      (patch.publishDate.None? ==> r.publishDate == a.publishDate) &&
      (patch.views.None? ==> r.views == a.views) && (patch.likes.None? ==> r.likes == a.likes) &&
      (patch.comments.None? ==> r.comments == a.comments) && (patch.tags.None? ==> r.tags == a.tags) &&
      (patch.featured.None? ==> r.featured == a.featured)
    ensures patch == EmptyPatch ==> r == a
  {
    NewsArticle(
      patch.id.GetOr(a.id), patch.title.GetOr(a.title), patch.content.GetOr(a.content),
      patch.markdownContent.GetOr(a.markdownContent), patch.excerpt.GetOr(a.excerpt),
      patch.author.GetOr(a.author), patch.category.GetOr(a.category), patch.status.GetOr(a.status),
      patch.publishDate.GetOr(a.publishDate), patch.views.GetOr(a.views), patch.likes.GetOr(a.likes),
      patch.comments.GetOr(a.comments), patch.tags.GetOr(a.tags), patch.featured.GetOr(a.featured))
  }

  function MergeWith(patch: ArticlePatch): NewsArticle -> NewsArticle {
    a => Merge(a, patch)
  }

  /** The whole record as a patch, as `handleEditArticle` stores it. */
  function PatchOf(a: NewsArticle): (r: ArticlePatch)
    ensures r.id == Some(a.id)
  {
    ArticlePatch(Some(a.id), Some(a.title), Some(a.content), Some(a.markdownContent), Some(a.excerpt),
                 Some(a.author), Some(a.category), Some(a.status), Some(a.publishDate), Some(a.views),
                 Some(a.likes), Some(a.comments), Some(a.tags), Some(a.featured))
  }

  /** The create button does something only with a title and some body text. */
  predicate CanCreate(form: NewArticleForm) {
    form.title != "" && (form.content != "" || form.markdownContent != "")
  }

  /** `(markdownContent || content || '').substring(0, 100) + '...'`. */
  function DefaultExcerpt(form: NewArticleForm): (r: string)
    ensures |r| >= |Ellipsis| && r[|r| - |Ellipsis|..] == Ellipsis
    ensures var body := if form.markdownContent != "" then form.markdownContent else form.content;
      && r[..|r| - |Ellipsis|] <= body
      && |r| - |Ellipsis| == if |body| < ExcerptLength then |body| else ExcerptLength
  {
    var body := if form.markdownContent != "" then form.markdownContent else form.content;
    var head := Take(body, ExcerptLength);
    assert (head + Ellipsis)[..|head|] == head;
    head + Ellipsis
  }

  /** The article `handleCreateArticle` builds: the id is the clock reading and the
      counters start at zero. */
  function CreatedArticle(form: NewArticleForm, nowMillis: int, today: string): (r: NewsArticle)
    ensures r.id == DecimalString(nowMillis) && r.publishDate == today
    ensures r.views == 0 && r.likes == 0 && r.comments == 0
    ensures r.title == form.title && r.content == form.content && r.markdownContent == form.markdownContent
    ensures r.author == form.author && r.category == form.category && r.status == form.status
    ensures r.tags == form.tags && r.featured == form.featured
    ensures form.excerpt != "" ==> r.excerpt == form.excerpt
    ensures form.excerpt == "" ==> r.excerpt == DefaultExcerpt(form)
  {
    NewsArticle(DecimalString(nowMillis), form.title, form.content, form.markdownContent,
                if form.excerpt != "" then form.excerpt else DefaultExcerpt(form),
                form.author, form.category, form.status, today, 0, 0, 0, form.tags, form.featured)
  }

  // ---------------------------------------------------------------- filters

  function HasStatus(status: ArticleStatus): NewsArticle -> bool {
    (a: NewsArticle) => a.status == status
  }

  function HasId(id: string): NewsArticle -> bool {
    (a: NewsArticle) => a.id == id
  }

  function HasOtherId(id: string): NewsArticle -> bool {
    (a: NewsArticle) => a.id != id
  }

  /** `filteredArticles`: everything under "all", otherwise the articles in that status, in list order. */
  function FilteredArticles(articles: seq<NewsArticle>, filter: Choice<ArticleStatus>): (r: seq<NewsArticle>)
    ensures filter.All? ==> r == articles
    ensures filter.Only? ==> IsSubsequence(r, articles)
    ensures filter.Only? ==> forall i :: 0 <= i < |r| ==> r[i].status == filter.choice
    ensures filter.Only? ==> forall i :: 0 <= i < |articles| && articles[i].status == filter.choice ==> articles[i] in r
  {
    if filter.All? then articles else Filter(articles, HasStatus(filter.choice))
  }

  /** Each article shows under exactly one status tab: the three tabs together list
      exactly as many articles as "all" does. */
  lemma StatusTabsPartition(articles: seq<NewsArticle>)
    ensures |FilteredArticles(articles, Only(Draft))| + |FilteredArticles(articles, Only(Published))|
         + |FilteredArticles(articles, Only(Archived))| == |articles|
  {
    var either := (a: NewsArticle) => a.status == Draft || a.status == Published;
    var any := (a: NewsArticle) => either(a) || a.status == Archived;
    FilterSplit(articles, HasStatus(Draft), HasStatus(Published), either);
    FilterSplit(articles, either, HasStatus(Archived), any);
    FilterKeepsAll(articles, any);
  }

  /** Deleting a freshly created article gives back the list it was added to. */
  lemma DeleteUndoesCreate(articles: seq<NewsArticle>, form: NewArticleForm, nowMillis: int, today: string)
    requires forall a :: a in articles ==> a.id != DecimalString(nowMillis)
    ensures Filter([CreatedArticle(form, nowMillis, today)] + articles, HasOtherId(DecimalString(nowMillis)))
         == articles
  {
    FilterDropsRejectedHead(CreatedArticle(form, nowMillis, today), articles, HasOtherId(DecimalString(nowMillis)));
  }

  // ---------------------------------------------------------------- the screen

  class NewsManager {
    var articles: seq<NewsArticle>
    var selectedArticle: Option<NewsArticle>
    var isCreateDialogOpen: bool
    var isEditMode: bool
    var editingArticle: ArticlePatch
    var filter: Choice<ArticleStatus>
    var newArticle: NewArticleForm

    /** The screen opens on its seed articles, given here as `initial`. */
    constructor (initial: seq<NewsArticle>)
      ensures articles == initial && selectedArticle.None? && filter == All
      ensures !isCreateDialogOpen && !isEditMode && editingArticle == EmptyPatch && newArticle == BlankForm
    {
      articles := initial;
      selectedArticle := None;
      isCreateDialogOpen := false;
      isEditMode := false;
      editingArticle := EmptyPatch;
      filter := All;
      newArticle := BlankForm;
    }

    /** The status tabs. */
    method SetFilter(f: Choice<ArticleStatus>)
      modifies this
      ensures filter == f
      ensures articles == old(articles) && selectedArticle == old(selectedArticle)
      ensures editingArticle == old(editingArticle) && newArticle == old(newArticle)
      ensures isCreateDialogOpen == old(isCreateDialogOpen) && isEditMode == old(isEditMode)
    {
      filter := f;
    }

    /** The create dialog's inputs. */
    method SetNewArticle(form: NewArticleForm)
      modifies this
      ensures newArticle == form
      ensures articles == old(articles) && selectedArticle == old(selectedArticle)
      ensures editingArticle == old(editingArticle) && filter == old(filter)
      ensures isCreateDialogOpen == old(isCreateDialogOpen) && isEditMode == old(isEditMode)
    {
      newArticle := form;
    }

    /** `handleCreateArticle`: without a title and some body nothing happens; otherwise
        the new article goes first, the form is reset and the dialog closes. */
    method HandleCreateArticle(nowMillis: int, today: string)
      modifies this
      ensures !CanCreate(old(newArticle)) ==> unchanged(this)
      ensures CanCreate(old(newArticle)) ==>
        && articles == [CreatedArticle(old(newArticle), nowMillis, today)] + old(articles)
        && newArticle == BlankForm && !isCreateDialogOpen
        && selectedArticle == old(selectedArticle) && editingArticle == old(editingArticle)
        && isEditMode == old(isEditMode) && filter == old(filter)
    {
      if CanCreate(newArticle) {
        var article := CreatedArticle(newArticle, nowMillis, today);
        articles := [article] + articles;
        newArticle := BlankForm;
        isCreateDialogOpen := false;
      }
    }

    /** A click on a card. */
    method SelectArticle(a: NewsArticle)
      modifies this
      ensures selectedArticle == Some(a)
      ensures articles == old(articles) && editingArticle == old(editingArticle) && isEditMode == old(isEditMode)
      ensures filter == old(filter) && newArticle == old(newArticle) && isCreateDialogOpen == old(isCreateDialogOpen)
    {
      selectedArticle := Some(a);
    }

    /** `handleEditArticle`: the editor opens on a copy of the whole record. */
    method HandleEditArticle(a: NewsArticle)
      modifies this
      ensures editingArticle == PatchOf(a) && isEditMode
      ensures articles == old(articles) && selectedArticle == old(selectedArticle) && newArticle == old(newArticle)
      ensures filter == old(filter) && isCreateDialogOpen == old(isCreateDialogOpen)
    {
      editingArticle := PatchOf(a);
      isEditMode := true;
    }

    /** The edit dialog's inputs. */
    method SetEditingArticle(patch: ArticlePatch)
      modifies this
      ensures editingArticle == patch
      ensures articles == old(articles) && selectedArticle == old(selectedArticle) && isEditMode == old(isEditMode)
      ensures filter == old(filter) && newArticle == old(newArticle) && isCreateDialogOpen == old(isCreateDialogOpen)
    {
      editingArticle := patch;
    }

    /** `handleSaveEdit`: without an id nothing happens; otherwise the patch is merged
        into every article with that id, the editor closes, and a selected article
        with that id gets the patch merged into its own copy. */
    method HandleSaveEdit()
      modifies this
      ensures old(editingArticle.id).None? || old(editingArticle.id).value == "" ==> unchanged(this)
      ensures old(editingArticle.id).Some? && old(editingArticle.id).value != "" ==>
        && articles == MapWhere(old(articles), HasId(old(editingArticle.id).value), MergeWith(old(editingArticle)))
        && !isEditMode && editingArticle == EmptyPatch
        && (if old(selectedArticle).Some? && old(selectedArticle).value.id == old(editingArticle.id).value
            then selectedArticle == Some(Merge(old(selectedArticle).value, old(editingArticle)))
            else selectedArticle == old(selectedArticle))
        && newArticle == old(newArticle) && filter == old(filter) && isCreateDialogOpen == old(isCreateDialogOpen)
    {
      if editingArticle.id.Some? && editingArticle.id.value != "" {
        var id := editingArticle.id.value;
        articles := MapWhere(articles, HasId(id), MergeWith(editingArticle));
        isEditMode := false;
        var patch := editingArticle;
        editingArticle := EmptyPatch;
        if selectedArticle.Some? && selectedArticle.value.id == id {
          selectedArticle := Some(Merge(selectedArticle.value, patch));
        }
      }
    }

    /** `handleDeleteArticle`: drops every article with that id and clears a matching selection. */
    method HandleDeleteArticle(id: string)
      modifies this
      ensures articles == Filter(old(articles), HasOtherId(id))
      ensures old(selectedArticle).Some? && old(selectedArticle).value.id == id ==> selectedArticle.None?
      ensures !(old(selectedArticle).Some? && old(selectedArticle).value.id == id) ==>
        selectedArticle == old(selectedArticle)
      ensures editingArticle == old(editingArticle) && newArticle == old(newArticle) && filter == old(filter)
      ensures isCreateDialogOpen == old(isCreateDialogOpen) && isEditMode == old(isEditMode)
    {
      articles := Filter(articles, HasOtherId(id));
      if selectedArticle.Some? && selectedArticle.value.id == id {
        selectedArticle := None;
      }
    }
  }
}
