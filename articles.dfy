/** The article catalogue page: the variant list of an article, held as one
    comma-separated string, its add/delete editor, the search box, the image
    carousel, and the handlers that mirror server updates into the list. */
module Articles {
  import opened Common
  import opened Text

  datatype Article = Article(
    id: int, code: string, name: string, description: string, category: string,
    price: int, urlImage: string,
    /** `available.code_available`, absent when the article has no variant string */
    available: Option<string>)

  // ---------------------------------------------------------------------------
  // The variant string

  function TrimAll(ps: seq<string>): seq<string>
  {
    if ps == [] then [] else [Trim(ps[0])] + TrimAll(ps[1..])
  }

  /** `s.split(",").map(v => v.trim())`: the entries of a variant string. */
  function Entries(s: string): seq<string>
  {
    TrimAll(Split(s, ','))
  }

  /** `entries.join(", ")`: the variant string of a list of entries. */
  function Render(entries: seq<string>): string
  {
    Join(entries, ", ")
  }

  /** An entry as the editor produces it: trimmed, without a comma. */
  predicate IsEntry(e: string)
  {
    ',' !in e && Trim(e) == e
  }

  /** Every entry of a variant string is trimmed and holds no comma. */
  lemma EntriesAreEntries(s: string)
    ensures |Entries(s)| >= 1
    ensures forall e :: e in Entries(s) ==> IsEntry(e)
  {
    TrimAllEntries(Split(s, ','));
  }

  lemma {:induction false} TrimAllEntries(ps: seq<string>)
    requires forall p :: p in ps ==> ',' !in p
    ensures |TrimAll(ps)| == |ps|
    ensures forall e :: e in TrimAll(ps) ==> IsEntry(e)
  {
    if ps != [] {
      TrimAllEntries(ps[1..]);
      var p := ps[0];
      assert p in ps;
      TrimIdempotent(p);
      TrimEnds(p);
    }
  }

  /** A space after a comma does not change the entries. */
  lemma EntriesLeadingSpace(x: string)
    ensures Entries([' '] + x) == Entries(x)
  {
    var ps := Split(x, ',');
    assert ([' '] + x)[1..] == x;
    var qs := Split([' '] + x, ',');
    assert qs == [[' '] + ps[0]] + ps[1..];
    TrimLeadingSpace(' ', ps[0]);
    assert qs[1..] == ps[1..];
    assert TrimAll(qs) == [Trim(qs[0])] + TrimAll(qs[1..]);
    assert TrimAll(ps) == [Trim(ps[0])] + TrimAll(ps[1..]);
  }

  /** Reading back a rendered list of entries gives the list. */
  lemma {:induction false} RenderEntries(entries: seq<string>)
    requires |entries| >= 1
    requires forall e :: e in entries ==> IsEntry(e)
    ensures Entries(Render(entries)) == entries
  {
    assert entries[0] in entries;
    if |entries| == 1 {
      SplitNoSeparator(entries[0], ',');
    } else {
      var rest := Render(entries[1..]);
      assert Render(entries) == entries[0] + [','] + ([' '] + rest);
      SplitFirst(entries[0], ',', [' '] + rest);
      var tail := Split([' '] + rest, ',');
      assert ([entries[0]] + tail)[1..] == tail;
      assert forall e :: e in entries[1..] ==> e in entries;
      EntriesLeadingSpace(rest);
      RenderEntries(entries[1..]);
    }
  }

  /** The variant a selection of colour, size and fit describes. */
  function NewVariant(color: string, size: string, fit: string): string
  {
    color + (if size != "" then "- " + size else "") + (if fit != "" then "- " + fit else "")
  }

  /** The add button is disabled, and a click rejected, exactly when nothing is selected. */
  predicate AddDisabled(color: string, fit: string, size: string)
  {
    color == "" && fit == "" && size == ""
  }

  /** An empty selection is the only one that yields an empty variant. */
  lemma NewVariantEmpty(color: string, size: string, fit: string)
    ensures NewVariant(color, size, fit) == "" <==> AddDisabled(color, fit, size)
  {
    if size != "" {
      assert |NewVariant(color, size, fit)| >= 2;
    }
    if fit != "" {
      assert |NewVariant(color, size, fit)| >= 2;
    }
  }

  /** The variant string after adding `v`: the old entries, then `v`. */
  function WithVariant(available: Option<string>, v: string): string
  {
    if available.Some? && available.value != "" then Render(Entries(available.value) + [v])
    else v
  }

  /** The variant string after deleting `v`: every entry equal to `v` goes. */
  function WithoutVariant(s: string, v: string): string
  {
    Render(RemoveAll(Entries(s), v))
  }

  /** The entries of a variant string that is absent or empty. */
  function OldEntries(available: Option<string>): seq<string>
  {
    if available.Some? && available.value != "" then Entries(available.value) else []
  }

  /** Adding appends the new variant after the existing entries; duplicates are kept. */
  lemma AddAppends(available: Option<string>, v: string)
    requires IsEntry(v)
    ensures Entries(WithVariant(available, v)) == OldEntries(available) + [v]
  {
    if available.Some? && available.value != "" {
      EntriesAreEntries(available.value);
      RenderEntries(Entries(available.value) + [v]);
    } else {
      RenderEntries([v]);
    }
  }

  /** Deleting leaves no entry equal to the variant and keeps the others in order. */
  lemma DeleteRemoves(s: string, v: string)
    requires RemoveAll(Entries(s), v) != []
    ensures Entries(WithoutVariant(s, v)) == RemoveAll(Entries(s), v)
    ensures v !in Entries(WithoutVariant(s, v))
  {
    EntriesAreEntries(s);
    RenderEntries(RemoveAll(Entries(s), v));
  }

  /** Deleting a variant just added gives back the previous list, normalised. */
  lemma AddDeleteRoundTrip(available: Option<string>, v: string)
    requires IsEntry(v)
    requires v !in OldEntries(available)
    ensures WithoutVariant(WithVariant(available, v), v) == Render(OldEntries(available))
  {
    AddAppends(available, v);
    var prev := OldEntries(available);
    RemoveAllConcat(prev, [v], v);
    RemoveAllAbsent(prev, v);
    assert RemoveAll([v], v) == [];
    assert prev + [] == prev;
  }

  // ---------------------------------------------------------------------------
  // Search and carousel

  predicate Matches(a: Article, term: string)
  {
    var t := Lower(term);
    Contains(Lower(a.name), t) || Contains(Lower(a.description), t) || Contains(Lower(a.code), t)
  }

  /** The search box: the articles whose name, description or code contains the term. */
  function Search(articles: seq<Article>, term: string): (r: seq<Article>)
    ensures |r| <= |articles|
    ensures forall a :: a in r <==> a in articles && Matches(a, term)
  {
    if articles == [] then []
    else (if Matches(articles[0], term) then [articles[0]] else []) + Search(articles[1..], term)
  }

  /** An empty search term keeps every article, in order. */
  lemma {:induction false} SearchEmpty(articles: seq<Article>)
    ensures Search(articles, "") == articles
  {
    if articles != [] {
      assert Lower("") == "";
      assert Matches(articles[0], "");
      SearchEmpty(articles[1..]);
    }
  }

  /** The "<" button of the image carousel. */
  function CarouselPrev(index: int, count: int): int
  {
    if index == 0 then count - 1 else index - 1
  }

  /** The ">" button of the image carousel. */
  function CarouselNext(index: int, count: int): int
  {
    if index == count - 1 then 0 else index + 1
  }

  /** With at least one image both buttons stay in range and undo each other. */
  lemma CarouselWraps(index: int, count: int)
    requires 0 <= index < count
    ensures 0 <= CarouselPrev(index, count) < count
    ensures 0 <= CarouselNext(index, count) < count
    ensures CarouselNext(CarouselPrev(index, count), count) == index
    ensures CarouselPrev(CarouselNext(index, count), count) == index
    ensures index == 0 ==> CarouselPrev(index, count) == count - 1
    ensures index == count - 1 ==> CarouselNext(index, count) == 0
  {
  }

  /** Without images nothing guards the buttons: from the initial index 0,
      "<" gives -1 and ">" gives 1, neither of them an image; away from -1 and
      0 the buttons just step by one and never wrap. */
  lemma CarouselEmpty(index: int)
    ensures CarouselPrev(0, 0) == -1 && CarouselNext(0, 0) == 1
    ensures index != 0 ==> CarouselPrev(index, 0) == index - 1
    ensures index != -1 ==> CarouselNext(index, 0) == index + 1
  {
  }

  // ---------------------------------------------------------------------------
  // Id-keyed list updates

  /** `articles.map(a => a.id === id ? x : a)`. */
  function ReplaceById(articles: seq<Article>, id: int, x: Article): (r: seq<Article>)
    ensures |r| == |articles|
  {
    seq(|articles|, i requires 0 <= i < |articles| => if articles[i].id == id then x else articles[i])
  }

  /** The list after a variant edit: the article with that id gets the new string. */
  function SetVariants(articles: seq<Article>, id: int, s: string): (r: seq<Article>)
    ensures |r| == |articles|
  {
    seq(|articles|, i requires 0 <= i < |articles| =>
      if articles[i].id == id then articles[i].(available := Some(s)) else articles[i])
  }

  /** `articles.filter(a => a.id !== id)`. */
  function DeleteById(articles: seq<Article>, id: int): (r: seq<Article>)
    ensures |r| <= |articles|
    ensures forall a :: a in r <==> a in articles && a.id != id
  {
    if articles == [] then []
    else (if articles[0].id != id then [articles[0]] else []) + DeleteById(articles[1..], id)
  }

  /** Only the article with the matching id changes; the others and the order stay. */
  lemma ReplaceOnlyMatching(articles: seq<Article>, id: int, x: Article, i: int)
    requires 0 <= i < |articles|
    ensures articles[i].id != id ==> ReplaceById(articles, id, x)[i] == articles[i]
    ensures articles[i].id == id ==> ReplaceById(articles, id, x)[i] == x
  {
  }

  /** A variant edit changes only the variant string of the article with that id. */
  lemma SetVariantsOnlyMatching(articles: seq<Article>, id: int, s: string, i: int)
    requires 0 <= i < |articles|
    ensures articles[i].id != id ==> SetVariants(articles, id, s)[i] == articles[i]
    ensures articles[i].id == id ==> SetVariants(articles, id, s)[i] == articles[i].(available := Some(s))
  {
  }

  /** Deleting an id the list holds once removes exactly that article. */
  lemma {:induction false} DeleteOne(before: seq<Article>, a: Article, after: seq<Article>)
    requires forall b :: b in before + after ==> b.id != a.id
    ensures DeleteById(before + [a] + after, a.id) == before + after
  {
    if before == [] {
      assert ([a] + after)[1..] == after;
      DeleteNone(after, a.id);
    } else {
      assert (before + [a] + after)[1..] == before[1..] + [a] + after;
      DeleteOne(before[1..], a, after);
      assert before + after == [before[0]] + (before[1..] + after);
    }
  }

  /** Deleting an id that no article has changes nothing. */
  lemma {:induction false} DeleteNone(articles: seq<Article>, id: int)
    requires forall b :: b in articles ==> b.id != id
    ensures DeleteById(articles, id) == articles
  {
    if articles != [] {
      DeleteNone(articles[1..], id);
    }
  }

  // ---------------------------------------------------------------------------
  // The page state

  class ArticleList {
    var articles: seq<Article>
    var selectedArticle: Option<Article>
    var selectedColor: string
    var selectedFit: string
    var selectedSize: string
    var deleteVariant: Option<string>
    var deleteArticleId: Option<int>

    constructor (loaded: seq<Article>)
      ensures articles == loaded && selectedArticle == None
      ensures selectedColor == "" && selectedFit == "" && selectedSize == ""
      ensures deleteVariant == None && deleteArticleId == None
    {
      articles := loaded;
      selectedArticle := None;
      selectedColor, selectedFit, selectedSize := "", "", "";
      deleteVariant := None;
      deleteArticleId := None;
    }

    /** An article opened for editing (the Edit buttons); the effect that
        watches the selection then clears the three variant pickers. */
    method OpenArticle(a: Article)
      modifies this
      ensures selectedArticle == Some(a)
      ensures selectedColor == "" && selectedFit == "" && selectedSize == ""
      ensures articles == old(articles) && deleteVariant == old(deleteVariant)
      ensures deleteArticleId == old(deleteArticleId)
    {
      selectedArticle := Some(a);
      selectedColor, selectedFit, selectedSize := "", "", "";
    }

    /** handleAddVariant: `putOk` is the server's answer to the update; `sent` the
        variant string sent, if a request was made. An alert shows when no
        picker is set, and after every request, whether it succeeded or not. */
    method AddVariant(putOk: bool) returns (sent: Option<string>, alerted: bool)
      modifies this
      ensures AddDisabled(old(selectedColor), old(selectedFit), old(selectedSize)) || old(selectedArticle) == None
        ==> sent == None && articles == old(articles) && selectedArticle == old(selectedArticle)
            && selectedColor == old(selectedColor) && selectedFit == old(selectedFit) && selectedSize == old(selectedSize)
      ensures !AddDisabled(old(selectedColor), old(selectedFit), old(selectedSize)) && old(selectedArticle).Some? ==>
        var a := old(selectedArticle).value;
        var s := WithVariant(a.available, NewVariant(old(selectedColor), old(selectedSize), old(selectedFit)));
        && sent == Some(s)
        && (putOk ==> articles == SetVariants(old(articles), a.id, s)
                      && selectedArticle == Some(a.(available := Some(s)))
                      && selectedColor == "" && selectedFit == "" && selectedSize == "")
        && (!putOk ==> articles == old(articles) && selectedArticle == old(selectedArticle)
                       && selectedColor == old(selectedColor) && selectedFit == old(selectedFit)
                       && selectedSize == old(selectedSize))
      ensures alerted <==> AddDisabled(old(selectedColor), old(selectedFit), old(selectedSize)) || sent.Some?
      ensures deleteVariant == old(deleteVariant) && deleteArticleId == old(deleteArticleId)
    {
      sent, alerted := None, false;
      if selectedColor == "" && selectedFit == "" && selectedSize == "" {
        return None, true;
      }
      var v := NewVariant(selectedColor, selectedSize, selectedFit);
      if selectedArticle == None {
        return;
      }
      var a := selectedArticle.value;
      var s := WithVariant(a.available, v);
      sent, alerted := Some(s), true;
      if putOk {
        selectedArticle := Some(a.(available := Some(s)));
        articles := SetVariants(articles, a.id, s);
        selectedColor, selectedFit, selectedSize := "", "", "";
      }
    }

    /** handleDeleteVariant: with no variant string the handler throws before any
        request, and nothing changes. After a successful request the selection
        is a new article, so the effect that watches it clears the three
        variant pickers; a failed request raises an alert. */
    method DeleteVariant(putOk: bool) returns (sent: Option<string>, alerted: bool)
      modifies this
      ensures old(selectedArticle) == None || old(deleteVariant) in {None, Some("")}
              || old(selectedArticle).value.available == None
        ==> sent == None && articles == old(articles) && selectedArticle == old(selectedArticle)
            && deleteVariant == old(deleteVariant)
      ensures old(selectedArticle).Some? && old(deleteVariant).Some? && old(deleteVariant) != Some("")
              && old(selectedArticle).value.available.Some? ==>
        var a := old(selectedArticle).value;
        var s := WithoutVariant(a.available.value, old(deleteVariant).value);
        && sent == Some(s)
        && (putOk ==> articles == SetVariants(old(articles), a.id, s)
                      && selectedArticle == Some(a.(available := Some(s))) && deleteVariant == None
                      && selectedColor == "" && selectedFit == "" && selectedSize == "")
        && (!putOk ==> articles == old(articles) && selectedArticle == old(selectedArticle)
                       && deleteVariant == old(deleteVariant))
      ensures sent.None? || !putOk ==>
        selectedColor == old(selectedColor) && selectedFit == old(selectedFit) && selectedSize == old(selectedSize)
      ensures alerted <==> sent.Some? && !putOk
      ensures deleteArticleId == old(deleteArticleId)
    {
      sent, alerted := None, false;
      if selectedArticle == None || deleteVariant == None || deleteVariant == Some("") {
        return;
      }
      var a := selectedArticle.value;
      if a.available == None {
        return;
      }
      var s := WithoutVariant(a.available.value, deleteVariant.value);
      sent, alerted := Some(s), !putOk;
      if putOk {
        selectedArticle := Some(a.(available := Some(s)));
        articles := SetVariants(articles, a.id, s);
        deleteVariant := None;
        selectedColor, selectedFit, selectedSize := "", "", "";
      }
    }

    /** handleDelete: an id of 0 counts as none; a failed request raises an alert. */
    method Delete(deleteOk: bool) returns (alerted: bool)
      modifies this
      ensures old(deleteArticleId) in {None, Some(0)} || !deleteOk
        ==> articles == old(articles) && deleteArticleId == old(deleteArticleId)
      ensures old(deleteArticleId).Some? && old(deleteArticleId) != Some(0) && deleteOk
        ==> articles == DeleteById(old(articles), old(deleteArticleId).value) && deleteArticleId == None
      ensures alerted <==> old(deleteArticleId) !in {None, Some(0)} && !deleteOk
      ensures selectedArticle == old(selectedArticle) && deleteVariant == old(deleteVariant)
      ensures selectedColor == old(selectedColor) && selectedFit == old(selectedFit)
      ensures selectedSize == old(selectedSize)
    {
      if deleteArticleId == None || deleteArticleId == Some(0) {
        return false;
      }
      alerted := !deleteOk;
      if deleteOk {
        articles := DeleteById(articles, deleteArticleId.value);
        deleteArticleId := None;
      }
    }

    /** handleUpdateArticle: the edited copy replaces the article with its id; a
        failed request raises an alert. */
    method Update(putOk: bool) returns (alerted: bool)
      modifies this
      ensures old(selectedArticle) == None || !putOk
        ==> articles == old(articles) && selectedArticle == old(selectedArticle)
      ensures old(selectedArticle).Some? && putOk
        ==> articles == ReplaceById(old(articles), old(selectedArticle).value.id, old(selectedArticle).value)
            && selectedArticle == None
      ensures alerted <==> old(selectedArticle).Some? && !putOk
      ensures deleteVariant == old(deleteVariant) && deleteArticleId == old(deleteArticleId)
      ensures selectedColor == old(selectedColor) && selectedFit == old(selectedFit)
      ensures selectedSize == old(selectedSize)
    {
      if selectedArticle == None {
        return false;
      }
      alerted := !putOk;
      if putOk {
        var a := selectedArticle.value;
        articles := ReplaceById(articles, a.id, a);
        selectedArticle := None;
      }
    }
  }
}
