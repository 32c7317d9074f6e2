/** The document-line builder shared by the invoice page and the new-document
    page: an article picked from a list is added with a quantity; a second
    addition of the same article grows the existing line instead of adding
    another one; a line is removed by article id. */
module ArticleLines {
  import opened Common

  /** An article offered in the picker. The price and bar code may be absent. */
  datatype Entity = Entity(id: int, code: string, name: string, price: Option<int>, barCode: Option<string>)

  datatype Line = Line(articleId: int, articleCode: string, articleName: string, quantity: int, price: Option<int>)

  /** `entities.find(e => e.id === id)`: the first entity with that id. */
  function FindById(entities: seq<Entity>, id: int): (r: Option<Entity>)
    ensures r.Some? ==> r.value in entities && r.value.id == id
    ensures r.None? <==> forall e :: e in entities ==> e.id != id
    ensures r.Some? ==>
      exists k :: 0 <= k < |entities| && entities[k] == r.value && forall j :: 0 <= j < k ==> entities[j].id != id
  {
    if entities == [] then None
    else if entities[0].id == id then Some(entities[0])
    else
      var r := FindById(entities[1..], id);
      if r.Some? then
        var k :| 0 <= k < |entities[1..]| && entities[1..][k] == r.value && forall j :: 0 <= j < k ==> entities[1..][j].id != id;
        assert entities[k + 1] == r.value;
        r
      else r
  }

  /** `articles.find(a => a.code === barcode || a.barCode === barcode)`. */
  function FindScanned(articles: seq<Entity>, barcode: string): (r: Option<Entity>)
    ensures r.Some? ==> r.value in articles && (r.value.code == barcode || r.value.barCode == Some(barcode))
    ensures r.None? <==> forall a :: a in articles ==> a.code != barcode && a.barCode != Some(barcode)
    ensures r.Some? ==>
      exists k :: 0 <= k < |articles| && articles[k] == r.value && forall j :: 0 <= j < k ==> !Scans(articles[j], barcode)
  {
    if articles == [] then None
    else if Scans(articles[0], barcode) then Some(articles[0])
    else
      var r := FindScanned(articles[1..], barcode);
      if r.Some? then
        var k :| 0 <= k < |articles[1..]| && articles[1..][k] == r.value && forall j :: 0 <= j < k ==> !Scans(articles[1..][j], barcode);
        assert articles[k + 1] == r.value;
        r
      else r
  }

  predicate Scans(a: Entity, barcode: string)
  {
    a.code == barcode || a.barCode == Some(barcode)
  }

  /** `lines.findIndex(l => l.articleId === id)`, with -1 as `None`. */
  function FindLine(lines: seq<Line>, id: int): (r: Option<nat>)
    ensures r.Some? ==> r.value < |lines| && lines[r.value].articleId == id
    ensures r.Some? ==> forall j :: 0 <= j < r.value ==> lines[j].articleId != id
    ensures r.None? <==> forall j :: 0 <= j < |lines| ==> lines[j].articleId != id
  {
    if lines == [] then None
    else if lines[0].articleId == id then Some(0)
    else
      match FindLine(lines[1..], id)
      case None => None
      case Some(k) => Some(k + 1)
  }

  /** handleAddArticle's update of the line list: a line for the same article
      grows by the new quantity, otherwise the new line is appended. */
  function MergeAdd(lines: seq<Line>, line: Line): seq<Line>
  {
    match FindLine(lines, line.articleId)
    case Some(i) => lines[i := lines[i].(quantity := lines[i].quantity + line.quantity)]
    case None => lines + [line]
  }

  /** `lines.filter(l => l.articleId !== id)`. */
  function RemoveLine(lines: seq<Line>, id: int): (r: seq<Line>)
    ensures |r| <= |lines|
    ensures forall l :: l in r <==> l in lines && l.articleId != id
  {
    if lines == [] then []
    else (if lines[0].articleId == id then [] else [lines[0]]) + RemoveLine(lines[1..], id)
  }

  /** No two lines are for the same article. */
  predicate UniqueIds(lines: seq<Line>)
  {
    forall i, j :: 0 <= i < j < |lines| ==> lines[i].articleId != lines[j].articleId
  }

  /** The invariant of a document under construction: one line per article,
      each with a positive quantity. */
  predicate ValidLines(lines: seq<Line>)
  {
    UniqueIds(lines) && forall l :: l in lines ==> l.quantity > 0
  }

  /** The total quantity the lines hold for one article. */
  function QuantityOf(lines: seq<Line>, id: int): int
  {
    if lines == [] then 0
    else (if lines[0].articleId == id then lines[0].quantity else 0) + QuantityOf(lines[1..], id)
  }

  lemma {:induction false} QuantityOfAppend(lines: seq<Line>, line: Line, id: int)
    ensures QuantityOf(lines + [line], id)
            == QuantityOf(lines, id) + (if line.articleId == id then line.quantity else 0)
  {
    if lines == [] {
      assert lines + [line] == [line];
    } else {
      assert (lines + [line])[1..] == lines[1..] + [line];
      QuantityOfAppend(lines[1..], line, id);
    }
  }

  lemma {:induction false} QuantityOfGrow(lines: seq<Line>, i: nat, delta: int, id: int)
    requires i < |lines|
    ensures QuantityOf(lines[i := lines[i].(quantity := lines[i].quantity + delta)], id)
            == QuantityOf(lines, id) + (if lines[i].articleId == id then delta else 0)
  {
    var grown := lines[i := lines[i].(quantity := lines[i].quantity + delta)];
    if i == 0 {
      assert grown[1..] == lines[1..];
    } else {
      assert grown[1..] == lines[1..][i - 1 := lines[i].(quantity := lines[i].quantity + delta)];
      QuantityOfGrow(lines[1..], i - 1, delta, id);
    }
  }

  /** Adding accumulates: the article's total grows by the added quantity and
      every other article's total is unchanged. */
  lemma MergeAddQuantity(lines: seq<Line>, line: Line, id: int)
    ensures QuantityOf(MergeAdd(lines, line), id)
            == QuantityOf(lines, id) + (if line.articleId == id then line.quantity else 0)
  {
    match FindLine(lines, line.articleId)
    case Some(i) => QuantityOfGrow(lines, i, line.quantity, id);
    case None => QuantityOfAppend(lines, line, id);
  }

  /** Adding keeps one line per article and positive quantities. */
  lemma MergeAddValid(lines: seq<Line>, line: Line)
    requires ValidLines(lines)
    requires line.quantity > 0
    ensures ValidLines(MergeAdd(lines, line))
  {
    var r := MergeAdd(lines, line);
    match FindLine(lines, line.articleId)
    case Some(i) =>
      assert forall k :: 0 <= k < |r| ==> r[k].articleId == lines[k].articleId;
      assert forall l :: l in r ==> l.quantity > 0 by {
        forall l | l in r ensures l.quantity > 0 {
          var k :| 0 <= k < |r| && r[k] == l;
          assert lines[k] in lines;
        }
      }
    case None =>
  }

  /** The shape of an addition: an existing article keeps the list length and
      changes only that line's quantity; a new article is appended. */
  lemma MergeAddShape(lines: seq<Line>, line: Line)
    ensures var r := MergeAdd(lines, line);
      if exists j :: 0 <= j < |lines| && lines[j].articleId == line.articleId then
        |r| == |lines| &&
        forall k :: 0 <= k < |lines| ==>
          r[k] == if lines[k].articleId == line.articleId && FindLine(lines, line.articleId) == Some(k)
                  then lines[k].(quantity := lines[k].quantity + line.quantity) else lines[k]
      else r == lines + [line]
  {
  }

  /** Removing an article leaves no line for it and keeps the others' totals. */
  lemma {:induction false} RemoveLineQuantity(lines: seq<Line>, id: int, other: int)
    ensures QuantityOf(RemoveLine(lines, id), other) == if other == id then 0 else QuantityOf(lines, other)
  {
    if lines != [] {
      RemoveLineQuantity(lines[1..], id, other);
      var rest := RemoveLine(lines[1..], id);
      if lines[0].articleId != id {
        assert RemoveLine(lines, id) == [lines[0]] + rest;
        assert ([lines[0]] + rest)[1..] == rest;
      } else {
        assert RemoveLine(lines, id) == rest;
      }
    }
  }

  /** Removing keeps the invariant. */
  lemma {:induction false} RemoveLineValid(lines: seq<Line>, id: int)
    requires ValidLines(lines)
    ensures ValidLines(RemoveLine(lines, id))
  {
    if lines != [] {
      RemoveLineValid(lines[1..], id);
      var rest := RemoveLine(lines[1..], id);
      if lines[0].articleId != id {
        assert forall j :: 1 <= j < |lines| ==> lines[j].articleId != lines[0].articleId;
        assert forall l :: l in rest ==> l in lines[1..];
        assert forall j :: 0 <= j < |rest| ==> rest[j].articleId != lines[0].articleId;
        assert RemoveLine(lines, id) == [lines[0]] + rest;
      }
    }
  }

  /** Removing an article not on the document changes nothing. */
  lemma {:induction false} RemoveLineAbsent(lines: seq<Line>, id: int)
    requires forall l :: l in lines ==> l.articleId != id
    ensures RemoveLine(lines, id) == lines
  {
    if lines != [] {
      RemoveLineAbsent(lines[1..], id);
    }
  }

  /** Adding a new article and then removing it restores the document. */
  lemma AddRemoveRoundTrip(lines: seq<Line>, line: Line)
    requires forall l :: l in lines ==> l.articleId != line.articleId
    ensures RemoveLine(MergeAdd(lines, line), line.articleId) == lines
  {
    assert FindLine(lines, line.articleId) == None;
    RemoveLineConcat(lines, [line], line.articleId);
    RemoveLineAbsent(lines, line.articleId);
    assert RemoveLine([line], line.articleId) == [];
  }

  lemma {:induction false} RemoveLineConcat(a: seq<Line>, b: seq<Line>, id: int)
    ensures RemoveLine(a + b, id) == RemoveLine(a, id) + RemoveLine(b, id)
  {
    if a == [] {
      assert a + b == b;
    } else {
      assert (a + b)[1..] == a[1..] + b;
      RemoveLineConcat(a[1..], b, id);
    }
  }

  /** The picker state of a page: the lines, the selected article and the quantity box. */
  datatype Form = Form(items: seq<Line>, selected: Option<Entity>, quantity: int)

  /** handleAddArticle: with an article selected and a positive quantity the line
      is merged in and the picker resets to no selection and quantity 1;
      otherwise nothing changes. `keepPrice` says whether the page copies the
      article's price onto the line. */
  function AddSelected(f: Form, keepPrice: bool): Form
  {
    if f.selected.Some? && f.quantity > 0 then
      var e := f.selected.value;
      Form(MergeAdd(f.items, Line(e.id, e.code, e.name, f.quantity, if keepPrice then e.price else None)), None, 1)
    else f
  }

  /** An accepted addition adds exactly the quantity typed to the selected
      article and keeps the invariant; a rejected one changes nothing. */
  lemma AddSelectedFacts(f: Form, keepPrice: bool, id: int)
    requires ValidLines(f.items)
    ensures ValidLines(AddSelected(f, keepPrice).items)
    ensures f.selected.Some? && f.quantity > 0 ==>
      && AddSelected(f, keepPrice).selected == None
      && AddSelected(f, keepPrice).quantity == 1
      && QuantityOf(AddSelected(f, keepPrice).items, id)
         == QuantityOf(f.items, id) + (if f.selected.value.id == id then f.quantity else 0)
    ensures !(f.selected.Some? && f.quantity > 0) ==> AddSelected(f, keepPrice) == f
  {
    if f.selected.Some? && f.quantity > 0 {
      var e := f.selected.value;
      var line := Line(e.id, e.code, e.name, f.quantity, if keepPrice then e.price else None);
      MergeAddValid(f.items, line);
      MergeAddQuantity(f.items, line, id);
    }
  }
}
