/** The new-document page for a delivery note ("remito", from a supplier) or
    an order ("pedido", to a client): lines built with the shared line builder
    (no prices), and the document request. */
module NewDocument {
  import opened Common
  import opened ArticleLines

  /** The route parameter is accepted only as "remito" or "pedido"; anything
      else sends the user back to the document list. */
  predicate IsKnownType(t: Option<string>)
  {
    t == Some("remito") || t == Some("pedido")
  }

  /** The receipt number, also used as the book id: 5 for a delivery note, 4 otherwise. */
  function ReceiptNumber(t: Option<string>): int
  {
    if t == Some("remito") then 5 else 4
  }

  /** The movement direction of every line: in ('E') for a delivery note, out ('S') otherwise. */
  function MovementType(t: Option<string>): char
  {
    if t == Some("remito") then 'E' else 'S'
  }

  /** The endpoint that lists the counterparties: suppliers for a delivery note, clients otherwise. */
  function EntityEndpoint(t: Option<string>): string
  {
    if t == Some("remito") then "/supplier" else "/client"
  }

  /** A delivery note is an inbound document from a supplier in book 5; an order
      is an outbound document to a client in book 4. */
  lemma DocumentKinds(t: Option<string>)
    requires IsKnownType(t)
    ensures t == Some("remito") <==> MovementType(t) == 'E'
    ensures t == Some("pedido") <==> MovementType(t) == 'S'
    ensures MovementType(t) == 'E' <==> ReceiptNumber(t) == 5 && EntityEndpoint(t) == "/supplier"
    ensures MovementType(t) == 'S' <==> ReceiptNumber(t) == 4 && EntityEndpoint(t) == "/client"
  {
  }

  datatype DocumentHeader = DocumentHeader(
    receiptNumber: int, thirdPartyCode: int, compType: Option<string>, bookId: int,
    statusId: int, comments: string, controlUser: Option<string>)

  datatype DocumentLine = DocumentLine(articleCode: string, quantity: int, movementType: char, price: int, cost: int)

  datatype DocumentRequest = DocumentRequest(header: DocumentHeader, data: seq<DocumentLine>)

  /** `user ? JSON.parse(user).username : ''`: "" without a stored user, the
      stored name (no value when the user has none) otherwise, and no request
      at all (`None`) when the stored text cannot be parsed, since the parse
      throws before the request is built. */
  function ControlUser(user: StoredUser): (r: Option<Option<string>>)
    ensures r.None? <==> user.Unparsable?
    ensures user.NoUser? ==> r == Some(Some(""))
    ensures user.Parsed? ==> r == Some(user.username)
  {
    match user
    case NoUser => Some(Some(""))
    case Unparsable => None
    case Parsed(username, _) => Some(username)
  }

  /** The request body of handleCreateDocument. */
  function BuildRequest(t: Option<string>, entity: Entity, comments: string, controlUser: Option<string>,
                        lines: seq<Line>): DocumentRequest
  {
    DocumentRequest(
      DocumentHeader(ReceiptNumber(t), entity.id, t, ReceiptNumber(t), 1, comments, controlUser),
      seq(|lines|, i requires 0 <= i < |lines| => DocumentLine(lines[i].articleCode, lines[i].quantity, MovementType(t), 0, 0)))
  }

  /** The header's receipt and book agree, the status is 1, the counterparty,
      type, comments and user are the given ones, and every line becomes one
      document line, in order, at price and cost 0 with the document's
      direction. */
  lemma BuildRequestFacts(t: Option<string>, entity: Entity, comments: string, controlUser: Option<string>,
                          lines: seq<Line>)
    ensures var r := BuildRequest(t, entity, comments, controlUser, lines);
      && r.header.receiptNumber == r.header.bookId == ReceiptNumber(t)
      && r.header.statusId == 1
      && r.header.thirdPartyCode == entity.id
      && r.header.compType == t && r.header.comments == comments && r.header.controlUser == controlUser
      && |r.data| == |lines|
      && forall i :: 0 <= i < |lines| ==>
           r.data[i] == DocumentLine(lines[i].articleCode, lines[i].quantity, MovementType(t), 0, 0)
  {
  }

  class DocumentDraft {
    const docType: Option<string>
    var entities: seq<Entity>
    var articles: seq<Entity>
    var selectedEntity: Option<Entity>
    var documentItems: seq<Line>
    var comments: string
    var selectedArticle: Option<Entity>
    var articleQuantity: int
    var showConfirmModal: bool

    ghost function State(): Form
      reads this
    {
      Form(documentItems, selectedArticle, articleQuantity)
    }

    /** The lines are well formed, and a page opened with an unknown type
        (which redirects away) has nothing to pick from and nothing picked. */
    ghost predicate Valid()
      reads this
    {
      && ValidLines(documentItems)
      && (!IsKnownType(docType) ==>
            entities == [] && articles == [] && selectedEntity == None
            && selectedArticle == None && documentItems == [])
    }

    /** The page as its effect leaves it: `entities` and `articles` are what
        the two requests returned ([] when one failed); with an unknown type
        the effect redirects before requesting either. */
    constructor (docType: Option<string>, entities: seq<Entity>, articles: seq<Entity>)
      ensures Valid()
      ensures this.docType == docType
      ensures this.entities == (if IsKnownType(docType) then entities else [])
      ensures this.articles == (if IsKnownType(docType) then articles else [])
      ensures selectedEntity == None && documentItems == [] && selectedArticle == None
      ensures articleQuantity == 1 && !showConfirmModal && comments == ""
    {
      this.docType := docType;
      if IsKnownType(docType) {
        this.entities := entities;
        this.articles := articles;
      } else {
        this.entities := [];
        this.articles := [];
      }
      selectedEntity := None;
      documentItems := [];
      comments := "";
      selectedArticle := None;
      articleQuantity := 1;
      showConfirmModal := false;
    }

    /** The counterparty picker's onChange: an id that matches no listed entity clears the choice. */
    method SelectEntity(id: int)
      requires Valid()
      modifies this
      ensures Valid()
      ensures selectedEntity == FindById(entities, id)
      ensures entities == old(entities) && articles == old(articles)
      ensures State() == old(State())
      ensures comments == old(comments) && showConfirmModal == old(showConfirmModal)
    {
      selectedEntity := FindById(entities, id);
    }

    /** The article picker's onChange. */
    method SelectArticle(id: int)
      requires Valid()
      modifies this
      ensures Valid()
      ensures selectedArticle == FindById(articles, id)
      ensures documentItems == old(documentItems) && articleQuantity == old(articleQuantity)
      ensures articles == old(articles) && entities == old(entities) && selectedEntity == old(selectedEntity)
      ensures comments == old(comments) && showConfirmModal == old(showConfirmModal)
    {
      selectedArticle := FindById(articles, id);
    }

    /** handleAddArticle; the page does not copy a price onto the line. */
    method AddArticle()
      requires Valid()
      modifies this
      ensures Valid()
      ensures State() == AddSelected(old(State()), false)
      ensures selectedEntity == old(selectedEntity) && articles == old(articles)
      ensures entities == old(entities) && comments == old(comments) && showConfirmModal == old(showConfirmModal)
    {
      AddSelectedFacts(State(), false, 0);
      if selectedArticle.Some? && articleQuantity > 0 {
        var e := selectedArticle.value;
        documentItems := MergeAdd(documentItems, Line(e.id, e.code, e.name, articleQuantity, None));
        selectedArticle := None;
        articleQuantity := 1;
      }
    }

    /** handleRemoveArticle. */
    method RemoveArticle(articleId: int)
      requires Valid()
      modifies this
      ensures Valid()
      ensures documentItems == RemoveLine(old(documentItems), articleId)
      ensures selectedArticle == old(selectedArticle) && articleQuantity == old(articleQuantity)
      ensures entities == old(entities) && articles == old(articles) && selectedEntity == old(selectedEntity)
      ensures comments == old(comments) && showConfirmModal == old(showConfirmModal)
    {
      RemoveLineValid(documentItems, articleId);
      documentItems := RemoveLine(documentItems, articleId);
    }

    /** handleCreateDocument: nothing is sent without a counterparty or without
        lines, nor when the stored user cannot be parsed; only a page with a
        known type can send; the confirmation shows only when the post succeeded. */
    method CreateDocument(user: StoredUser, postOk: bool) returns (sent: Option<DocumentRequest>)
      requires Valid()
      modifies this
      ensures Valid()
      ensures sent.Some? <==> selectedEntity.Some? && documentItems != [] && !user.Unparsable?
      ensures sent.Some? ==> IsKnownType(docType)
      ensures sent.Some? ==> sent.value == BuildRequest(docType, selectedEntity.value, comments, ControlUser(user).value, documentItems)
      ensures showConfirmModal == (old(showConfirmModal) || (sent.Some? && postOk))
      ensures documentItems == old(documentItems) && selectedEntity == old(selectedEntity)
      ensures comments == old(comments)
      ensures entities == old(entities) && articles == old(articles)
      ensures selectedArticle == old(selectedArticle) && articleQuantity == old(articleQuantity)
    {
      if selectedEntity.None? || documentItems == [] {
        return None;
      }
      var controlUser := ControlUser(user);
      if controlUser.None? {
        return None;
      }
      sent := Some(BuildRequest(docType, selectedEntity.value, comments, controlUser.value, documentItems));
      if postOk {
        showConfirmModal := true;
      }
    }
  }
}
