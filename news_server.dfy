// The backend's news article store (src/news.rs): a shared list of articles
// with list/get/create/update/delete handlers and a status histogram.

module NewsServer {
  import opened Wrappers
  import opened Kinds
  import opened Text
  import opened Seqs

  /** Article ids are random UUIDs in the server; here the caller supplies them. */
  type Uuid = nat

  datatype NewsArticle = NewsArticle(
    id: Uuid,
    title: string,
    content: string,
    markdownContent: string,
    excerpt: string,
    author: string,
    category: string,
    status: ArticleStatus,
    publishDate: int,
    views: nat,
    likes: nat,
    comments: nat,
    tags: seq<string>,
    featured: bool)

  /** The body of a create or update request; absent optional fields arrive empty. */
  datatype UpsertArticle = UpsertArticle(
    title: string,
    content: string,
    markdownContent: string,
    excerpt: string,
    author: string,
    category: string,
    status: ArticleStatus,
    tags: seq<string>,
    featured: bool)

  /** The query string of `GET /news`. */
  datatype ListParams = ListParams(
    q: Option<string>,
    status: Option<ArticleStatus>,
    category: Option<string>,
    limit: Option<nat>,
    offset: Option<nat>)

  datatype NewsStats = NewsStats(total: nat, drafts: nat, published: nat, archived: nat)

  const DefaultLimit: nat := 100
  const MaxLimit: nat := 1000
  /** A created article with no excerpt gets this many leading characters of its markdown. */
  const ExcerptLength: nat := 120

  // ---------------------------------------------------------------- filters

  predicate QueryMatches(a: NewsArticle, q: Option<string>) {
    q.None? || Contains(Lower(a.title), Lower(q.value)) || Contains(Lower(a.excerpt), Lower(q.value))
  }

  predicate StatusMatches(a: NewsArticle, status: Option<ArticleStatus>) {
    status.None? || a.status == status.value
  }

  predicate CategoryMatches(a: NewsArticle, category: Option<string>) {
    category.None? || a.category == category.value
  }

  /** An article passes every filter the query supplies. */
  predicate Matches(a: NewsArticle, params: ListParams) {
    QueryMatches(a, params.q) && StatusMatches(a, params.status) && CategoryMatches(a, params.category)
  }

  function Matcher(params: ListParams): NewsArticle -> bool {
    a => Matches(a, params)
  }

  function ByQuery(params: ListParams): NewsArticle -> bool {
    a => QueryMatches(a, params.q)
  }

  function ByStatus(params: ListParams): NewsArticle -> bool {
    a => StatusMatches(a, params.status)
  }

  function ByCategory(params: ListParams): NewsArticle -> bool {
    a => CategoryMatches(a, params.category)
  }

  /** Narrowing by the query, then the status, then the category is narrowing by all three at once. */
  lemma FilterSteps(articles: seq<NewsArticle>, params: ListParams)
    ensures Filter(Filter(Filter(articles, ByQuery(params)), ByStatus(params)), ByCategory(params))
         == Filter(articles, Matcher(params))
  {
    FilterThrice(articles, ByQuery(params), ByStatus(params), ByCategory(params), Matcher(params));
  }

  function HasId(id: Uuid): NewsArticle -> bool {
    (a: NewsArticle) => a.id == id
  }

  function HasOtherId(id: Uuid): NewsArticle -> bool {
    (a: NewsArticle) => a.id != id
  }

  function EffectiveLimit(params: ListParams): nat {
    var limit := params.limit.GetOr(DefaultLimit);
    if limit < MaxLimit then limit else MaxLimit
  }

  /** The window `[offset, min(offset + limit, |items|))` of `items`, empty when
      `offset` is at or past the end. */
  function Page<T>(items: seq<T>, offset: nat, limit: nat): (r: seq<T>)
    ensures |r| <= limit
    ensures offset >= |items| ==> r == []
    ensures offset < |items| ==> |r| == if offset + limit < |items| then limit else |items| - offset
    ensures forall i :: 0 <= i < |r| ==> offset + i < |items| && r[i] == items[offset + i]
  {
    if offset < |items| then
      var end := if offset + limit < |items| then offset + limit else |items|;
      items[offset..end]
    else
      []
  }

  // ---------------------------------------------------------------- records

  /** The article `create_news` builds from a request. */
  function NewArticle(payload: UpsertArticle, id: Uuid, now: int): (r: NewsArticle)
    ensures r.id == id && r.publishDate == now
    ensures r.views == 0 && r.likes == 0 && r.comments == 0
    ensures r.title == payload.title && r.content == payload.content
    ensures r.markdownContent == payload.markdownContent
    ensures r.author == payload.author && r.category == payload.category && r.status == payload.status
    ensures r.tags == payload.tags && r.featured == payload.featured
    ensures payload.excerpt != "" ==> r.excerpt == payload.excerpt
    ensures payload.excerpt == "" ==>
      && r.excerpt <= payload.markdownContent
      && |r.excerpt| == if |payload.markdownContent| < ExcerptLength then |payload.markdownContent| else ExcerptLength
  {
    NewsArticle(
      id, payload.title, payload.content, payload.markdownContent,
      if payload.excerpt == "" then Take(payload.markdownContent, ExcerptLength) else payload.excerpt,
      payload.author, payload.category, payload.status, now, 0, 0, 0, payload.tags, payload.featured)
  }

  /** The article `update_news` leaves behind: every editable field from the request
      (the excerpt too, even when empty), identity, date and counters kept. */
  function Edited(a: NewsArticle, payload: UpsertArticle): (r: NewsArticle)
    ensures r.id == a.id && r.publishDate == a.publishDate
    ensures r.views == a.views && r.likes == a.likes && r.comments == a.comments
    ensures r.title == payload.title && r.content == payload.content
    ensures r.markdownContent == payload.markdownContent && r.excerpt == payload.excerpt
    ensures r.author == payload.author && r.category == payload.category && r.status == payload.status
    ensures r.tags == payload.tags && r.featured == payload.featured
  {
    a.(title := payload.title, content := payload.content, markdownContent := payload.markdownContent,
       excerpt := payload.excerpt, author := payload.author, category := payload.category,
       status := payload.status, tags := payload.tags, featured := payload.featured)
  }

  // ---------------------------------------------------------------- counting

  /** The articles in one state. */
  function HasStatus(status: ArticleStatus): NewsArticle -> bool {
    (a: NewsArticle) => a.status == status
  }

  /** How many articles are in `status`. */
  function CountStatus(articles: seq<NewsArticle>, status: ArticleStatus): nat {
    Count(articles, HasStatus(status))
  }

  /** Every article is in exactly one of the three states. */
  lemma {:induction false} StatusCountsPartition(articles: seq<NewsArticle>)
    ensures CountStatus(articles, Draft) + CountStatus(articles, Published) + CountStatus(articles, Archived)
         == |articles|
  {
    if articles != [] {
      StatusCountsPartition(articles[1..]);
    }
  }

  /** Removing a freshly created article gives back the store it was added to,
      and the removal is reported (the store shrank). */
  lemma {:induction false} DeleteUndoesCreate(articles: seq<NewsArticle>, a: NewsArticle)
    requires forall x :: x in articles ==> x.id != a.id
    ensures Filter([a] + articles, HasOtherId(a.id)) == articles
    ensures |Filter([a] + articles, HasOtherId(a.id))| < |[a] + articles|
  {
    FilterDropsRejectedHead(a, articles, HasOtherId(a.id));
  }

  // ---------------------------------------------------------------- the store

  class NewsStore {
    var articles: seq<NewsArticle>

    /** `new_with_mock`: two published articles; the clock is read once for each. */
    constructor NewWithMock(firstId: Uuid, secondId: Uuid, firstNow: int, secondNow: int)
      ensures |articles| == 2 && articles[0].id == firstId && articles[1].id == secondId
      ensures forall i :: 0 <= i < |articles| ==> articles[i].status == Published
      ensures articles[0].publishDate == firstNow && articles[1].publishDate == secondNow
      ensures articles[0].featured && !articles[1].featured
    {
      articles := [
        NewsArticle(
          firstId, "Обновление системы безопасности",
          "Подробное описание обновления системы безопасности...",
          "# Обновление системы безопасности",
          "Важные улучшения в системе безопасности нашего проекта",
          "Администратор", "Безопасность", Published, firstNow, 1250, 89, 23,
          ["безопасность", "обновление"], true),
        NewsArticle(
          secondId, "Новые функции в API v2.0", "Описание новых функций API...",
          "# API v2.0 - Новые возможности", "Представляем новые возможности нашего API",
          "Разработчик", "Разработка", Published, secondNow, 890, 67, 15,
          ["api", "разработка"], false)
      ];
    }

    /** `list_news`: the three optional filters narrow a copy one after the other;
        the result is one page of what survives. */
    method List(params: ListParams) returns (r: seq<NewsArticle>)
      ensures r == Page(Filter(articles, Matcher(params)), params.offset.GetOr(0), EffectiveLimit(params))
      ensures |r| <= MaxLimit && (params.limit.None? ==> |r| <= DefaultLimit)
      ensures forall i :: 0 <= i < |r| ==> r[i] in articles && Matches(r[i], params)
    {
      var items := articles;
      if params.q.Some? {
        items := Filter(items, ByQuery(params));
      } else {
        FilterKeepsAll(items, ByQuery(params));
      }
      if params.status.Some? {
        items := Filter(items, ByStatus(params));
      } else {
        FilterKeepsAll(items, ByStatus(params));
      }
      if params.category.Some? {
        items := Filter(items, ByCategory(params));
      } else {
        FilterKeepsAll(items, ByCategory(params));
      }
      FilterSteps(articles, params);
      r := Page(items, params.offset.GetOr(0), EffectiveLimit(params));
    }

    /** `get_news`: the first article with that id, or none (404). */
    method Get(id: Uuid) returns (r: Option<NewsArticle>)
      ensures r.None? <==> forall a :: a in articles ==> a.id != id
      ensures r.Some? ==>
        exists i :: 0 <= i < |articles| && articles[i] == r.value && r.value.id == id
          && forall j :: 0 <= j < i ==> articles[j].id != id
    {
      match FindIndex(articles, HasId(id))
      case None =>
        r := None;
      case Some(i) =>
        r := Some(articles[i]);
    }

    /** `create_news`: the new article goes first, the old ones follow unchanged; always 201. */
    method Create(payload: UpsertArticle, id: Uuid, now: int) returns (status: Status, article: NewsArticle)
      modifies this
      ensures status == Created && status.Code() == 201
      ensures article == NewArticle(payload, id, now)
      ensures articles == [article] + old(articles)
    {
      article := NewArticle(payload, id, now);
      articles := [article] + articles;
      status := Created;
    }

    /** `update_news`: only the first article with that id is edited. */
    method Update(id: Uuid, payload: UpsertArticle) returns (r: Option<NewsArticle>)
      modifies this
      ensures match FindIndex(old(articles), HasId(id))
        case None => r.None? && articles == old(articles)
        case Some(i) => r == Some(Edited(old(articles)[i], payload)) && articles == old(articles)[i := r.value]
    {
      match FindIndex(articles, HasId(id))
      case None =>
        r := None;
      case Some(i) =>
        var edited := Edited(articles[i], payload);
        articles := articles[i := edited];
        r := Some(edited);
    }

    /** `delete_news`: drops every article with that id; 204 exactly when one was dropped. */
    method Delete(id: Uuid) returns (status: Status)
      modifies this
      ensures articles == Filter(old(articles), HasOtherId(id))
      ensures status == NoContent <==> exists a :: a in old(articles) && a.id == id
      ensures status != NoContent ==> status == NotFound && articles == old(articles)
    {
      var before := |articles|;
      FilterShrinksIff(articles, HasOtherId(id));
      if forall a :: a in articles ==> HasOtherId(id)(a) {
        FilterKeepsAll(articles, HasOtherId(id));
      }
      articles := Filter(articles, HasOtherId(id));
      if |articles| != before {
        status := NoContent;
      } else {
        status := NotFound;
      }
    }

    /** `news_stats`: the status histogram, which always adds up to the total. */
    method Stats() returns (r: NewsStats)
      ensures r.total == |articles|
      ensures r.drafts == CountStatus(articles, Draft) && r.published == CountStatus(articles, Published)
      ensures r.archived == CountStatus(articles, Archived)
      ensures r.drafts + r.published + r.archived == r.total
    {
      r := NewsStats(|articles|, CountStatus(articles, Draft), CountStatus(articles, Published),
                     CountStatus(articles, Archived));
      StatusCountsPartition(articles);
    }
  }
}
