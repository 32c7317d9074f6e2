/** The stock-movement page of a document: lines of (article, location,
    quantity) that are appended without merging and removed by position, the
    bar-code scan that selects an article, and the chain of four requests that
    records the movement and fetches the document/picking comparison. */
module Movement {
  import opened Common
  import opened ArticleLines

  datatype MovementItem = MovementItem(articleId: int, articleCode: string, locationCode: string, quantity: int)

  datatype ComparedArticle = ComparedArticle(articleCode: string, docQuantity: int, pickQuantity: int, difference: int)

  /** `items.filter((_, i) => i !== index)`. */
  function RemoveAt<T>(items: seq<T>, index: int): (r: seq<T>)
    ensures |r| == if 0 <= index < |items| then |items| - 1 else |items|
  {
    if items == [] then []
    else (if index == 0 then [] else [items[0]]) + RemoveAt(items[1..], index - 1)
  }

  /** Removal by position drops exactly the entry at that position and keeps the
      others in order; a position outside the list changes nothing. */
  lemma {:induction false} RemoveAtSlices<T>(items: seq<T>, index: int)
    ensures 0 <= index < |items| ==> RemoveAt(items, index) == items[..index] + items[index + 1..]
    ensures !(0 <= index < |items|) ==> RemoveAt(items, index) == items
  {
    if items != [] {
      RemoveAtSlices(items[1..], index - 1);
      if index == 0 {
        assert items[index + 1..] == items[1..];
      } else if 0 < index < |items| {
        assert items[..index] == [items[0]] + items[1..][..index - 1];
        assert items[index + 1..] == items[1..][index..];
      } else {
        assert [items[0]] + items[1..] == items;
      }
    }
  }

  /** Every line names a location and holds a positive quantity. */
  predicate ValidItems(items: seq<MovementItem>)
  {
    forall it :: it in items ==> it.locationCode != "" && it.quantity > 0
  }

  /** The picker state: the lines, the selected article, the location box and the quantity box. */
  datatype Picker = Picker(items: seq<MovementItem>, selected: Option<Entity>, locationCode: string, quantity: int)

  /** handleAddItem: with an article, a location and a positive quantity one line
      is appended (never merged) and the picker resets; otherwise nothing changes. */
  function AddItem(p: Picker): Picker
  {
    if p.selected.Some? && p.locationCode != "" && p.quantity > 0 then
      Picker(p.items + [MovementItem(p.selected.value.id, p.selected.value.code, p.locationCode, p.quantity)], None, "", 1)
    else p
  }

  /** An accepted addition appends exactly one line and keeps the invariant, so
      adding the same article and location twice gives two lines. */
  lemma AddItemFacts(p: Picker)
    requires ValidItems(p.items)
    ensures ValidItems(AddItem(p).items)
    ensures p.selected.Some? && p.locationCode != "" && p.quantity > 0 ==>
      && AddItem(p).items[..|p.items|] == p.items
      && |AddItem(p).items| == |p.items| + 1
      && AddItem(p).items[|p.items|].articleId == p.selected.value.id
      && AddItem(p).items[|p.items|].locationCode == p.locationCode
      && AddItem(p).items[|p.items|].quantity == p.quantity
      && AddItem(p).selected == None && AddItem(p).locationCode == "" && AddItem(p).quantity == 1
    ensures !(p.selected.Some? && p.locationCode != "" && p.quantity > 0) ==> AddItem(p) == p
  {
    if p.selected.Some? && p.locationCode != "" && p.quantity > 0 {
      assert (p.items + [MovementItem(p.selected.value.id, p.selected.value.code, p.locationCode, p.quantity)])[..|p.items|] == p.items;
    }
  }

  /** No merging: adding an article at a location twice leaves two equal lines. */
  lemma AddTwiceTwoLines(p: Picker, e: Entity, location: string, quantity: int)
    requires location != "" && quantity > 0
    ensures var once := AddItem(p.(selected := Some(e), locationCode := location, quantity := quantity));
      var twice := AddItem(once.(selected := Some(e), locationCode := location, quantity := quantity));
      && |twice.items| == |p.items| + 2
      && twice.items[|p.items|] == twice.items[|p.items| + 1] == MovementItem(e.id, e.code, location, quantity)
  {
  }

  /** handleScan: a known code selects that article, clears the location and
      sets quantity 1 without adding a line; an unknown code changes nothing. */
  function ScanSelect(p: Picker, articles: seq<Entity>, barcode: string): Picker
  {
    match FindScanned(articles, barcode)
    case None => p
    case Some(a) => Picker(p.items, Some(a), "", 1)
  }

  lemma ScanSelectFacts(p: Picker, articles: seq<Entity>, barcode: string)
    ensures ScanSelect(p, articles, barcode).items == p.items
    ensures FindScanned(articles, barcode).Some? ==>
      && ScanSelect(p, articles, barcode).selected == FindScanned(articles, barcode)
      && ScanSelect(p, articles, barcode).locationCode == ""
      && ScanSelect(p, articles, barcode).quantity == 1
    ensures (forall a :: a in articles ==> !Scans(a, barcode)) ==> ScanSelect(p, articles, barcode) == p
  {
  }

  /** The requests of handleCreateMovement, in the order they are made. */
  datatype Call = PostPicking | GetMovement | PutStatus5 | GetMatch

  function AllCalls(): seq<Call>
  {
    [PostPicking, GetMovement, PutStatus5, GetMatch]
  }

  /** The calls made when the requests answer `oks` in turn: each call is made
      only when every earlier one succeeded. */
  function CallsMade(oks: seq<bool>): (r: seq<Call>)
    requires |oks| == 4
  {
    if !oks[0] then [PostPicking]
    else if !oks[1] then [PostPicking, GetMovement]
    else if !oks[2] then [PostPicking, GetMovement, PutStatus5]
    else AllCalls()
  }

  /** The calls are always a non-empty prefix of the fixed order; a call is made
      only after all the earlier ones succeeded; all four are made exactly when
      the first three succeed. */
  lemma CallsMadeOrder(oks: seq<bool>)
    requires |oks| == 4
    ensures 1 <= |CallsMade(oks)| <= 4
    ensures CallsMade(oks) == AllCalls()[..|CallsMade(oks)|]
    ensures forall i :: 0 <= i < |CallsMade(oks)| - 1 ==> oks[i]
    ensures |CallsMade(oks)| < 4 ==> !oks[|CallsMade(oks)| - 1]
    ensures CallsMade(oks) == AllCalls() <==> oks[0] && oks[1] && oks[2]
  {
  }

  class MovementPage {
    const docType: Option<string>
    const documentId: Option<string>
    var articles: seq<Entity>
    var selectedArticle: Option<Entity>
    var locationCode: string
    var quantity: int
    var movementItems: seq<MovementItem>
    var showScanner: bool
    var loading: bool
    var comparisonData: Option<seq<ComparedArticle>>

    ghost function State(): Picker
      reads this
    {
      Picker(movementItems, selectedArticle, locationCode, quantity)
    }

    ghost predicate Valid()
      reads this
    {
      ValidItems(movementItems)
    }

    constructor (docType: Option<string>, documentId: Option<string>, articles: seq<Entity>)
      ensures Valid()
      ensures this.docType == docType && this.documentId == documentId && this.articles == articles
      ensures State() == Picker([], None, "", 1)
      ensures !showScanner && !loading && comparisonData == None
    {
      this.docType := docType;
      this.documentId := documentId;
      this.articles := articles;
      selectedArticle := None;
      locationCode := "";
      quantity := 1;
      movementItems := [];
      showScanner := false;
      loading := false;
      comparisonData := None;
    }

    /** handleAddItem. */
    method AddItemLine()
      requires Valid()
      modifies this
      ensures Valid()
      ensures State() == AddItem(old(State()))
      ensures articles == old(articles) && comparisonData == old(comparisonData)
      ensures showScanner == old(showScanner) && loading == old(loading)
    {
      AddItemFacts(State());
      if selectedArticle.Some? && locationCode != "" && quantity > 0 {
        movementItems := movementItems + [MovementItem(selectedArticle.value.id, selectedArticle.value.code, locationCode, quantity)];
        selectedArticle := None;
        locationCode := "";
        quantity := 1;
      }
    }

    /** The trash button of the line at `index`. */
    method RemoveItem(index: int)
      requires Valid()
      modifies this
      ensures Valid()
      ensures movementItems == RemoveAt(old(movementItems), index)
      ensures selectedArticle == old(selectedArticle) && locationCode == old(locationCode)
      ensures quantity == old(quantity)
      ensures articles == old(articles) && comparisonData == old(comparisonData)
      ensures showScanner == old(showScanner) && loading == old(loading)
    {
      RemoveAtSlices(movementItems, index);
      assert forall it :: it in RemoveAt(movementItems, index) ==> it in movementItems;
      movementItems := RemoveAt(movementItems, index);
    }

    /** handleScan; the scanner closes whether or not the code is known, and an
        unknown code raises an alert. */
    method ScanCode(barcode: string) returns (alerted: bool)
      requires Valid()
      modifies this
      ensures Valid()
      ensures State() == ScanSelect(old(State()), articles, barcode)
      ensures alerted <==> FindScanned(articles, barcode).None?
      ensures !showScanner && articles == old(articles)
      ensures comparisonData == old(comparisonData) && loading == old(loading)
    {
      var found := FindScanned(articles, barcode);
      if found.Some? {
        selectedArticle := found;
        locationCode := "";
        quantity := 1;
      }
      alerted := found.None?;
      showScanner := false;
    }

    /** handleCreateMovement. `oks` are the answers of the four requests in
        order; `compared` is what the comparison request returns. Without a type
        or document id nothing is sent and an alert shows. Otherwise the calls
        stop at the first failure, which shows an alert, and the comparison
        data is stored only when all four succeed. */
    method CreateMovement(oks: seq<bool>, compared: Option<seq<ComparedArticle>>)
      returns (calls: seq<Call>, alerted: bool)
      requires |oks| == 4
      requires Valid()
      modifies this
      ensures Valid()
      ensures var refused := docType in {None, Some("")} || documentId in {None, Some("")};
        && (refused ==> calls == [] && alerted && loading == old(loading))
        && (!refused ==> calls == CallsMade(oks) && !loading)
        && (!refused ==> (alerted <==> !(oks[0] && oks[1] && oks[2] && oks[3])))
        && comparisonData == if !refused && oks[0] && oks[1] && oks[2] && oks[3] then compared
                             else old(comparisonData)
      ensures movementItems == old(movementItems)
      ensures articles == old(articles) && selectedArticle == old(selectedArticle)
      ensures locationCode == old(locationCode) && quantity == old(quantity)
      ensures showScanner == old(showScanner)
    {
      if docType in {None, Some("")} || documentId in {None, Some("")} {
        return [], true;
      }
      loading := true;
      calls := [PostPicking];
      alerted := false;
      if !oks[0] {
        alerted := true;
      } else {
        calls := calls + [GetMovement];
        if !oks[1] {
          alerted := true;
        } else {
          calls := calls + [PutStatus5];
          if !oks[2] {
            alerted := true;
          } else {
            calls := calls + [GetMatch];
            if !oks[3] {
              alerted := true;
            } else {
              comparisonData := compared;
            }
          }
        }
      }
      loading := false;
    }
  }
}
