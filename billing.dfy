/** The invoice page: lines built with the shared line builder (the article's
    price is copied onto its line), the invoice total, bar-code scanning, and
    the two requests that create the invoice (a picking at location "A1", then
    the movement document). */
module Billing {
  import opened Common
  import opened ArticleLines

  /** `item.price || 0`. */
  function PriceOrZero(price: Option<int>): int
  {
    if price.Some? then price.value else 0
  }

  function LineAmount(l: Line): int
  {
    PriceOrZero(l.price) * l.quantity
  }

  /** `items.reduce((sum, item) => sum + (item.price || 0) * item.quantity, 0)`. */
  function InvoiceTotal(lines: seq<Line>): int
  {
    if lines == [] then 0 else InvoiceTotal(lines[..|lines| - 1]) + LineAmount(lines[|lines| - 1])
  }

  lemma {:induction false} InvoiceTotalGrow(lines: seq<Line>, i: nat, delta: int)
    requires i < |lines|
    ensures InvoiceTotal(lines[i := lines[i].(quantity := lines[i].quantity + delta)])
            == InvoiceTotal(lines) + PriceOrZero(lines[i].price) * delta
  {
    var n := |lines|;
    var grown := lines[i := lines[i].(quantity := lines[i].quantity + delta)];
    var p := PriceOrZero(lines[i].price);
    if i == n - 1 {
      assert grown[..n - 1] == lines[..n - 1];
      assert p * (lines[i].quantity + delta) == p * lines[i].quantity + p * delta;
    } else {
      assert grown[..n - 1] == lines[..n - 1][i := lines[i].(quantity := lines[i].quantity + delta)];
      InvoiceTotalGrow(lines[..n - 1], i, delta);
    }
  }

  /** The price the quantity of an addition is charged at: that of the article's
      existing line, or the new line's own. */
  function ChargedPrice(lines: seq<Line>, line: Line): int
  {
    match FindLine(lines, line.articleId)
    case Some(i) => PriceOrZero(lines[i].price)
    case None => PriceOrZero(line.price)
  }

  /** An addition raises the total by the added quantity at the charged price. */
  lemma MergeAddTotal(lines: seq<Line>, line: Line)
    ensures InvoiceTotal(MergeAdd(lines, line)) == InvoiceTotal(lines) + ChargedPrice(lines, line) * line.quantity
  {
    match FindLine(lines, line.articleId)
    case Some(i) => InvoiceTotalGrow(lines, i, line.quantity);
    case None => assert (lines + [line])[..|lines|] == lines;
  }

  /** With prices and quantities non-negative the total is non-negative. */
  lemma {:induction false} InvoiceTotalNonNegative(lines: seq<Line>)
    requires forall l :: l in lines ==> PriceOrZero(l.price) >= 0 && l.quantity >= 0
    ensures InvoiceTotal(lines) >= 0
  {
    if lines != [] {
      assert lines[|lines| - 1] in lines;
      assert forall l :: l in lines[..|lines| - 1] ==> l in lines;
      InvoiceTotalNonNegative(lines[..|lines| - 1]);
    }
  }

  datatype PickingEntry = PickingEntry(articleCode: string, locationCode: string, quantity: int, price: int, cost: int)

  /** The `pickingData` of the first request. */
  function PickingData(lines: seq<Line>): seq<PickingEntry>
  {
    seq(|lines|, i requires 0 <= i < |lines| =>
      PickingEntry(lines[i].articleCode, "A1", lines[i].quantity, PriceOrZero(lines[i].price), PriceOrZero(lines[i].price)))
  }

  /** One entry per line, in order, all from location "A1", priced and costed at
      the line's price, so the picking is worth the invoice total. */
  lemma PickingDataFacts(lines: seq<Line>)
    ensures var p := PickingData(lines);
      && |p| == |lines|
      && (forall i :: 0 <= i < |lines| ==>
            && p[i].articleCode == lines[i].articleCode
            && p[i].locationCode == "A1"
            && p[i].quantity == lines[i].quantity
            && p[i].price == p[i].cost == PriceOrZero(lines[i].price))
      && PickingWorth(p) == InvoiceTotal(lines)
  {
    PickingWorthMatches(lines);
  }

  function PickingWorth(p: seq<PickingEntry>): int
  {
    if p == [] then 0 else PickingWorth(p[..|p| - 1]) + p[|p| - 1].price * p[|p| - 1].quantity
  }

  lemma {:induction false} PickingWorthMatches(lines: seq<Line>)
    ensures PickingWorth(PickingData(lines)) == InvoiceTotal(lines)
  {
    if lines != [] {
      assert PickingData(lines)[..|lines| - 1] == PickingData(lines[..|lines| - 1]);
      PickingWorthMatches(lines[..|lines| - 1]);
    }
  }

  /** The second request's header: receipt 3, book 3, status 5, type "factura". */
  datatype InvoiceHeader = InvoiceHeader(
    receiptNumber: int, thirdPartyCode: Option<int>, compType: string, bookId: int,
    statusId: int, comments: string, controlUser: string)

  /** `JSON.parse(localStorage.getItem("user") || "{}").username || "unknown"`:
      the stored name when it is non-empty text, "unknown" otherwise, and no
      value (`None`) when the stored text cannot be parsed, since the parse
      then throws inside the request's body and the request is never made. */
  function ControlUser(user: StoredUser): (r: Option<string>)
    ensures r.None? <==> user.Unparsable?
    ensures r == Some("unknown") <==>
              || user.NoUser?
              || (user.Parsed? && (user.username == None || user.username == Some("") || user.username == Some("unknown")))
    ensures r.Some? && r != Some("unknown") ==> user.Parsed? && user.username == r
  {
    match user
    case NoUser => Some("unknown")
    case Unparsable => None
    case Parsed(username, _) => if username.Some? && username.value != "" then username else Some("unknown")
  }

  function BuildHeader(client: Option<Entity>, comments: string, controlUser: string): InvoiceHeader
  {
    InvoiceHeader(3, if client.Some? then Some(client.value.id) else None, "factura", 3, 5, comments, controlUser)
  }

  /** handleScan as written: it selects the scanned article and then calls the
      add handler of the same render, which still sees the previous selection
      and quantity. So a scan adds the article that was selected before (if
      any), and the scanned article is only left selected when nothing was. */
  function ScanAsWritten(f: Form, articles: seq<Entity>, barcode: string): Form
  {
    match FindScanned(articles, barcode)
    case None => f
    case Some(a) =>
      if f.selected.Some? && f.quantity > 0 then AddSelected(f, true)
      else Form(f.items, Some(a), 1)
  }

  /** The lookup and selection handleScan performs: the first article whose code
      or bar code is the scanned text becomes the selection with quantity 1; an
      unknown code changes nothing. */
  function ScanSelect(f: Form, articles: seq<Entity>, barcode: string): Form
  {
    match FindScanned(articles, barcode)
    case None => f
    case Some(a) => Form(f.items, Some(a), 1)
  }

  /** A scan never touches the lines; it selects a matching article exactly when one exists. */
  lemma ScanSelectFacts(f: Form, articles: seq<Entity>, barcode: string)
    ensures ScanSelect(f, articles, barcode).items == f.items
    ensures ScanSelect(f, articles, barcode) != f ==>
      && ScanSelect(f, articles, barcode).selected.Some?
      && var a := ScanSelect(f, articles, barcode).selected.value;
         a in articles && (a.code == barcode || a.barCode == Some(barcode))
    ensures (forall a :: a in articles ==> a.code != barcode && a.barCode != Some(barcode))
            ==> ScanSelect(f, articles, barcode) == f
    ensures (exists a :: a in articles && a.code == barcode)
            ==> ScanSelect(f, articles, barcode).selected.Some? && ScanSelect(f, articles, barcode).quantity == 1
  {
  }

  /** With nothing selected, a scan as written adds nothing; with another article
      selected, that article is added and the scanned one is not. */
  lemma ScanAsWrittenMissesScannedArticle()
    ensures var shirt := Entity(7, "R01", "Remera", Some(100), None);
      var cap := Entity(9, "G02", "Gorra", Some(50), None);
      && ScanAsWritten(Form([], None, 1), [shirt], "R01") == Form([], Some(shirt), 1)
      && ScanAsWritten(Form([], Some(cap), 2), [shirt], "R01") == Form([Line(9, "G02", "Gorra", 2, Some(50))], None, 1)
  {
    var shirt := Entity(7, "R01", "Remera", Some(100), None);
    assert FindScanned([shirt], "R01") == Some(shirt);
  }

  class Invoice {
    var clients: seq<Entity>
    var articles: seq<Entity>
    var selectedClient: Option<Entity>
    var documentItems: seq<Line>
    var comments: string
    var selectedArticle: Option<Entity>
    var articleQuantity: int
    var showScanner: bool
    var loading: bool
    var invoiceNumber: Option<string>
    var showFinalModal: bool

    ghost function State(): Form
      reads this
    {
      Form(documentItems, selectedArticle, articleQuantity)
    }

    ghost predicate Valid()
      reads this
    {
      ValidLines(documentItems)
    }

    /** The page after loading: client 1 ("consumidor final") preselected when present. */
    constructor (clients: seq<Entity>, articles: seq<Entity>)
      ensures Valid()
      ensures this.clients == clients && this.articles == articles && selectedClient == FindById(clients, 1)
      ensures documentItems == [] && selectedArticle == None && articleQuantity == 1
      ensures !showScanner && !loading && invoiceNumber == None && !showFinalModal && comments == ""
    {
      this.clients := clients;
      this.articles := articles;
      selectedClient := FindById(clients, 1);
      documentItems := [];
      comments := "";
      selectedArticle := None;
      articleQuantity := 1;
      showScanner := false;
      loading := false;
      invoiceNumber := None;
      showFinalModal := false;
    }

    /** The client picker's onChange: an id that matches no listed client clears the choice. */
    method SelectClient(id: int)
      modifies this
      ensures selectedClient == FindById(clients, id)
      ensures clients == old(clients) && documentItems == old(documentItems) && comments == old(comments)
      ensures selectedArticle == old(selectedArticle) && articleQuantity == old(articleQuantity)
      ensures articles == old(articles)
      ensures showScanner == old(showScanner) && loading == old(loading)
      ensures invoiceNumber == old(invoiceNumber) && showFinalModal == old(showFinalModal)
    {
      selectedClient := FindById(clients, id);
    }

    /** The article picker's onChange. */
    method SelectArticle(id: int)
      modifies this
      ensures selectedArticle == FindById(articles, id)
      ensures documentItems == old(documentItems) && articleQuantity == old(articleQuantity)
      ensures articles == old(articles)
      ensures clients == old(clients) && selectedClient == old(selectedClient) && comments == old(comments)
      ensures showScanner == old(showScanner) && loading == old(loading)
      ensures invoiceNumber == old(invoiceNumber) && showFinalModal == old(showFinalModal)
    {
      selectedArticle := FindById(articles, id);
    }

    /** handleAddArticle. */
    method AddArticle()
      requires Valid()
      modifies this
      ensures Valid()
      ensures State() == AddSelected(old(State()), true)
      ensures articles == old(articles) && showScanner == old(showScanner)
      ensures clients == old(clients) && selectedClient == old(selectedClient) && comments == old(comments)
      ensures loading == old(loading) && invoiceNumber == old(invoiceNumber) && showFinalModal == old(showFinalModal)
    {
      AddSelectedFacts(State(), true, 0);
      if selectedArticle.Some? && articleQuantity > 0 {
        var e := selectedArticle.value;
        documentItems := MergeAdd(documentItems, Line(e.id, e.code, e.name, articleQuantity, e.price));
        selectedArticle := None;
        articleQuantity := 1;
      }
    }

    /** handleScan's lookup and selection; the scanner closes whether or not the
        code is known, and an unknown code raises an alert. */
    method ScanCode(barcode: string) returns (alerted: bool)
      requires Valid()
      modifies this
      ensures Valid()
      ensures State() == ScanSelect(old(State()), articles, barcode)
      ensures alerted <==> FindScanned(articles, barcode).None?
      ensures !showScanner && articles == old(articles)
      ensures clients == old(clients) && selectedClient == old(selectedClient) && comments == old(comments)
      ensures loading == old(loading) && invoiceNumber == old(invoiceNumber) && showFinalModal == old(showFinalModal)
    {
      var found := FindScanned(articles, barcode);
      if found.Some? {
        selectedArticle := found;
        articleQuantity := 1;
      }
      alerted := found.None?;
      showScanner := false;
    }

    /** The trash button of a line. */
    method RemoveItem(articleId: int)
      requires Valid()
      modifies this
      ensures Valid()
      ensures documentItems == RemoveLine(old(documentItems), articleId)
      ensures selectedArticle == old(selectedArticle) && articleQuantity == old(articleQuantity)
      ensures clients == old(clients) && articles == old(articles)
      ensures selectedClient == old(selectedClient) && comments == old(comments)
      ensures showScanner == old(showScanner) && loading == old(loading)
      ensures invoiceNumber == old(invoiceNumber) && showFinalModal == old(showFinalModal)
    {
      RemoveLineValid(documentItems, articleId);
      documentItems := RemoveLine(documentItems, articleId);
    }

    /** handleCreateInvoice. The picking is always sent; the header only when the
        picking succeeded with a non-zero id and the stored user can be parsed;
        the final modal shows the returned number only when both requests
        succeeded. */
    method CreateInvoice(pickingOk: bool, pickingId: Option<int>, user: StoredUser,
                         movementOk: bool, compNumber: Option<string>)
      returns (picking: seq<PickingEntry>, header: Option<InvoiceHeader>)
      requires Valid()
      modifies this
      ensures Valid()
      ensures picking == PickingData(old(documentItems))
      ensures header.Some? <==> pickingOk && pickingId.Some? && pickingId.value != 0 && !user.Unparsable?
      ensures header.Some? ==> header.value == BuildHeader(selectedClient, comments, ControlUser(user).value)
      ensures showFinalModal == (old(showFinalModal) || (header.Some? && movementOk))
      ensures invoiceNumber == if header.Some? && movementOk then compNumber else old(invoiceNumber)
      ensures !loading
      ensures documentItems == old(documentItems) && selectedClient == old(selectedClient) && comments == old(comments)
      ensures clients == old(clients) && articles == old(articles)
      ensures selectedArticle == old(selectedArticle) && articleQuantity == old(articleQuantity)
      ensures showScanner == old(showScanner)
    {
      loading := true;
      picking := PickingData(documentItems);
      header := None;
      var controlUser := ControlUser(user);
      if pickingOk && pickingId.Some? && pickingId.value != 0 && controlUser.Some? {
        header := Some(BuildHeader(selectedClient, comments, controlUser.value));
        if movementOk {
          invoiceNumber := compNumber;
          showFinalModal := true;
        }
      }
      loading := false;
    }
  }
}
