/** The article master page: the search box over the loaded articles and the
    handlers that mirror a successful delete, update or creation into the list.
    An article coming from the form may have no id yet. */
module MasterArticles {
  import opened Common
  import opened Text

  datatype Article = Article(
    id: Option<int>, code: string, baseCode: string, name: string, alias: string,
    description: string, price: int, cost: int, comments: string, brand: string,
    category: string, supplier: string, urlImage: string, codigoBarra: Option<string>)

  /** The form the page starts with: every text empty, price and cost 0, and an empty bar code. */
  function InitialForm(): Article
  {
    Article(None, "", "", "", "", "", 0, 0, "", "", "", "", "", Some(""))
  }

  /** The form after a successful creation: the same, but without a bar code at all. */
  function ResetForm(): Article
  {
    Article(None, "", "", "", "", "", 0, 0, "", "", "", "", "", None)
  }

  /** The reset form differs from the initial one only in the missing bar code. */
  lemma ResetFormOmitsBarCode()
    ensures ResetForm() != InitialForm()
    ensures ResetForm() == InitialForm().(codigoBarra := None)
    ensures InitialForm().codigoBarra == Some("") && ResetForm().codigoBarra == None
  {
  }

  // ---------------------------------------------------------------------------
  // Search

  predicate Matches(a: Article, term: string)
  {
    var t := Lower(term);
    Contains(Lower(a.name), t) || Contains(Lower(a.description), t) || Contains(Lower(a.code), t)
  }

  /** The effect that recomputes `filteredArticles` from the term and the list. */
  function Search(articles: seq<Article>, term: string): (r: seq<Article>)
    ensures |r| <= |articles|
    ensures forall a :: a in r <==> a in articles && Matches(a, term)
  {
    if articles == [] then []
    else (if Matches(articles[0], term) then [articles[0]] else []) + Search(articles[1..], term)
  }

  /** The search keeps the list's order: searching a concatenation searches each part. */
  lemma {:induction false} SearchConcat(xs: seq<Article>, ys: seq<Article>, term: string)
    ensures Search(xs + ys, term) == Search(xs, term) + Search(ys, term)
  {
    if xs == [] {
      assert xs + ys == ys;
    } else {
      assert (xs + ys)[1..] == xs[1..] + ys;
      SearchConcat(xs[1..], ys, term);
    }
  }

  /** An empty term keeps every article, in order. */
  lemma {:induction false} SearchEmpty(articles: seq<Article>)
    ensures Search(articles, "") == articles
  {
    if articles != [] {
      assert Lower("") == "";
      assert Matches(articles[0], "");
      SearchEmpty(articles[1..]);
    }
  }

  // ---------------------------------------------------------------------------
  // List updates

  /** `articles.filter(a => a.id !== id)`; an article without an id is never removed. */
  function DeleteById(articles: seq<Article>, id: int): (r: seq<Article>)
    ensures |r| <= |articles|
    ensures forall a :: a in r <==> a in articles && a.id != Some(id)
  {
    if articles == [] then []
    else (if articles[0].id != Some(id) then [articles[0]] else []) + DeleteById(articles[1..], id)
  }

  /** Deletion keeps the order of what it keeps: deleting from a concatenation deletes from each part. */
  lemma {:induction false} DeleteConcat(xs: seq<Article>, ys: seq<Article>, id: int)
    ensures DeleteById(xs + ys, id) == DeleteById(xs, id) + DeleteById(ys, id)
  {
    if xs == [] {
      assert xs + ys == ys;
    } else {
      assert (xs + ys)[1..] == xs[1..] + ys;
      DeleteConcat(xs[1..], ys, id);
    }
  }

  /** Deleting an id no article has changes nothing. */
  lemma {:induction false} DeleteAbsent(articles: seq<Article>, id: int)
    requires forall a :: a in articles ==> a.id != Some(id)
    ensures DeleteById(articles, id) == articles
  {
    if articles != [] {
      DeleteAbsent(articles[1..], id);
    }
  }

  /** Deleting an id held by exactly one article removes that article only. */
  lemma DeleteUnique(before: seq<Article>, a: Article, after: seq<Article>, id: int)
    requires a.id == Some(id)
    requires forall b :: b in before ==> b.id != Some(id)
    requires forall b :: b in after ==> b.id != Some(id)
    ensures DeleteById(before + [a] + after, id) == before + after
  {
    var left := before + [a];
    DeleteConcat(left, after, id);
    DeleteConcat(before, [a], id);
    assert DeleteById([a], id) == [] by {
      assert [a][1..] == [];
    }
    DeleteAbsent(before, id);
    DeleteAbsent(after, id);
    assert DeleteById(left, id) == before;
  }

  /** `articles.map(a => a.id === id ? x : a)`; with no id, every article without one matches. */
  function ReplaceById(articles: seq<Article>, id: Option<int>, x: Article): (r: seq<Article>)
    ensures |r| == |articles|
  {
    seq(|articles|, i requires 0 <= i < |articles| => if articles[i].id == id then x else articles[i])
  }

  /** Exactly the articles carrying the edited id become the edited copy; the
      rest keep their place and value. */
  lemma ReplaceOnlyMatching(articles: seq<Article>, id: Option<int>, x: Article)
    ensures forall i :: 0 <= i < |articles| && articles[i].id != id ==> ReplaceById(articles, id, x)[i] == articles[i]
    ensures forall i :: 0 <= i < |articles| && articles[i].id == id ==> ReplaceById(articles, id, x)[i] == x
    ensures x.id == id ==> forall i :: 0 <= i < |articles| ==> ReplaceById(articles, id, x)[i].id == articles[i].id
  {
  }

  // ---------------------------------------------------------------------------
  // The page state

  class MasterArticleList {
    var articles: seq<Article>
    var searchTerm: string
    var selectedArticle: Option<Article>
    var deleteArticleId: Option<int>
    var showAddModal: bool
    var newArticle: Article

    /** The page after the articles loaded. */
    constructor (loaded: seq<Article>)
      ensures articles == loaded && searchTerm == "" && selectedArticle == None
      ensures deleteArticleId == None && !showAddModal && newArticle == InitialForm()
      ensures Filtered() == loaded
    {
      articles := loaded;
      searchTerm := "";
      selectedArticle := None;
      deleteArticleId := None;
      showAddModal := false;
      newArticle := InitialForm();
      new;
      SearchEmpty(loaded);
    }

    /** `filteredArticles`, as the effect leaves it after every change of the term or the list. */
    function Filtered(): seq<Article>
      reads this
    {
      Search(articles, searchTerm)
    }

    /** handleDelete: an id of 0 counts as none; a failed request leaves
        everything and raises an alert. */
    method Delete(deleteOk: bool) returns (alerted: bool)
      modifies this
      ensures old(deleteArticleId) in {None, Some(0)} || !deleteOk
        ==> articles == old(articles) && deleteArticleId == old(deleteArticleId)
      ensures old(deleteArticleId).Some? && old(deleteArticleId) != Some(0) && deleteOk
        ==> articles == DeleteById(old(articles), old(deleteArticleId).value) && deleteArticleId == None
      ensures alerted <==> old(deleteArticleId) !in {None, Some(0)} && !deleteOk
      ensures searchTerm == old(searchTerm) && selectedArticle == old(selectedArticle)
      ensures newArticle == old(newArticle) && showAddModal == old(showAddModal)
    {
      if deleteArticleId == None || deleteArticleId == Some(0) {
        return false;
      }
      alerted := !deleteOk;
      if deleteOk {
        articles := DeleteById(articles, deleteArticleId.value);
        deleteArticleId := None;
      }
    }

    /** handleUpdateArticle: the edited copy replaces the articles with its id;
        a failed request raises an alert. */
    method Update(putOk: bool) returns (alerted: bool)
      modifies this
      ensures old(selectedArticle) == None || !putOk
        ==> articles == old(articles) && selectedArticle == old(selectedArticle)
      ensures old(selectedArticle).Some? && putOk
        ==> articles == ReplaceById(old(articles), old(selectedArticle).value.id, old(selectedArticle).value)
            && selectedArticle == None
      ensures alerted <==> old(selectedArticle).Some? && !putOk
      ensures searchTerm == old(searchTerm) && deleteArticleId == old(deleteArticleId)
      ensures newArticle == old(newArticle) && showAddModal == old(showAddModal)
    {
      if selectedArticle == None {
        return false;
      }
      alerted := !putOk;
      if putOk {
        var a := selectedArticle.value;
        articles := ReplaceById(articles, a.id, a);
        selectedArticle := None;
      }
    }

    /** handleAddArticle: the form is always sent; on success the article the
        server returns is appended, the modal closes and the form is reset; on
        failure an alert shows. */
    method Add(postOk: bool, added: Article) returns (sent: Article, alerted: bool)
      modifies this
      ensures sent == old(newArticle)
      ensures alerted == !postOk
      ensures postOk ==> articles == old(articles) + [added] && !showAddModal && newArticle == ResetForm()
      ensures !postOk ==> articles == old(articles) && showAddModal == old(showAddModal) && newArticle == old(newArticle)
      ensures searchTerm == old(searchTerm) && selectedArticle == old(selectedArticle)
      ensures deleteArticleId == old(deleteArticleId)
    {
      sent := newArticle;
      alerted := !postOk;
      if postOk {
        articles := articles + [added];
        showAddModal := false;
        newArticle := ResetForm();
      }
    }
  }
}
