/** The document list: how a document returned by the server is formatted
    (counterparty kind, capitalised type, default status, item prices and the
    total), the counterparty options of the filter (one per code, sorted by
    label) and the filter request, from which empty fields are dropped. */
module Documents {
  import opened Common
  import opened Text

  // ---------------------------------------------------------------------------
  // Formatting

  /** `str.charAt(0).toUpperCase() + str.slice(1).toLowerCase()`. */
  function Capitalize(s: string): (r: string)
    ensures |r| == |s|
    ensures s != [] ==> r[0] == UpperChar(s[0])
    ensures forall i :: 1 <= i < |s| ==> r[i] == LowerChar(s[i])
  {
    if s == [] then "" else Upper(s[..1]) + Lower(s[1..])
  }

  /** Capitalising twice is capitalising once. */
  lemma CapitalizeIdempotent(s: string)
    ensures Capitalize(Capitalize(s)) == Capitalize(s)
  {
    var c := Capitalize(s);
    var cc := Capitalize(c);
    assert |cc| == |c|;
    forall i | 0 <= i < |c|
      ensures cc[i] == c[i]
    {
      if i == 0 {
        assert UpperChar(UpperChar(s[0])) == UpperChar(s[0]);
      } else {
        assert LowerChar(LowerChar(s[i])) == LowerChar(s[i]);
      }
    }
  }

  /** `compType.toLowerCase() === "remito" ? "Proveedor" : "Cliente"`. */
  function ThirdPartyType(compType: string): string
  {
    if Lower(compType) == "remito" then "Proveedor" else "Cliente"
  }

  /** A delivery note ("remito", in any case) comes from a supplier; every other
      document type goes to a client. */
  lemma ThirdPartyTypeMapping(compType: string)
    ensures ThirdPartyType(compType) == "Proveedor" <==> Lower(compType) == "remito"
    ensures ThirdPartyType(compType) == "Cliente" <==> Lower(compType) != "remito"
    ensures ThirdPartyType("REMITO") == "Proveedor" && ThirdPartyType("pedido") == "Cliente"
  {
    assert Lower("REMITO") == "remito";
    assert Lower("pedido") == "pedido";
  }

  datatype Detail = Detail(id: int, articleCode: string, quantity: int, price: Option<int>)

  /** A document as the server sends it. */
  datatype RawDocument = RawDocument(
    id: int, thirdPartyCode: string, compType: string, issueDate: string,
    status: Option<string>, details: seq<Detail>)

  datatype Item = Item(id: int, articleCode: string, quantity: int, price: int)

  datatype Document = Document(
    id: int, thirdPartyCode: string, thirdPartyType: string, date: string,
    compType: string, status: string, items: seq<Item>, total: int)

  /** `x || 0` on a price. */
  function PriceOrZero(price: Option<int>): int
  {
    if price.Some? then price.value else 0
  }

  /** `document.status || "Pendiente"`: a missing or empty status reads as pending. */
  function StatusOrPending(status: Option<string>): (r: string)
    ensures r != ""
    ensures status.Some? && status.value != "" ==> r == status.value
  {
    if status.Some? && status.value != "" then status.value else "Pendiente"
  }

  /** Each detail becomes one item, in order, with the same id, code and
      quantity, and its price or 0 when it has none. */
  function FormatItems(details: seq<Detail>): (r: seq<Item>)
    ensures |r| == |details|
    ensures forall i :: 0 <= i < |details| ==>
      && r[i].id == details[i].id
      && r[i].articleCode == details[i].articleCode
      && r[i].quantity == details[i].quantity
      && (details[i].price.Some? ==> r[i].price == details[i].price.value)
      && (details[i].price.None? ==> r[i].price == 0)
  {
    seq(|details|, i requires 0 <= i < |details| =>
      Item(details[i].id, details[i].articleCode, details[i].quantity, PriceOrZero(details[i].price)))
  }

  /** `details.reduce((sum, d) => sum + d.quantity * (d.price || 0), 0)`. */
  function DetailsTotal(details: seq<Detail>): int
  {
    if details == [] then 0
    else DetailsTotal(details[..|details| - 1])
         + details[|details| - 1].quantity * PriceOrZero(details[|details| - 1].price)
  }

  /** The worth of formatted items, quantity times price. */
  function ItemsTotal(items: seq<Item>): int
  {
    if items == [] then 0 else ItemsTotal(items[..|items| - 1]) + items[|items| - 1].quantity * items[|items| - 1].price
  }

  /** The total shown agrees with the items shown: each detail becomes one item
      whose price defaults to 0, and the total is the items' worth. */
  lemma {:induction false} DetailsTotalMatchesItems(details: seq<Detail>)
    ensures DetailsTotal(details) == ItemsTotal(FormatItems(details))
  {
    if details != [] {
      assert FormatItems(details)[..|details| - 1] == FormatItems(details[..|details| - 1]);
      DetailsTotalMatchesItems(details[..|details| - 1]);
    }
  }

  function FormatDocument(d: RawDocument): Document
  {
    Document(d.id, d.thirdPartyCode, ThirdPartyType(d.compType), d.issueDate, Capitalize(d.compType),
             StatusOrPending(d.status), FormatItems(d.details), DetailsTotal(d.details))
  }

  /** A formatted document keeps the id, counterparty and date, shows the
      capitalised type and the status or "Pendiente", maps its details one to
      one, and shows a total equal to the worth of its items. */
  lemma FormatDocumentFacts(d: RawDocument)
    ensures var f := FormatDocument(d);
      && f.id == d.id && f.thirdPartyCode == d.thirdPartyCode && f.date == d.issueDate
      && f.compType == Capitalize(d.compType)
      && (d.status.Some? && d.status.value != "" ==> f.status == d.status.value)
      && ((d.status.None? || d.status == Some("")) ==> f.status == "Pendiente")
      && |f.items| == |d.details|
      && (forall i :: 0 <= i < |d.details| ==>
            f.items[i].id == d.details[i].id
            && f.items[i].articleCode == d.details[i].articleCode
            && f.items[i].quantity == d.details[i].quantity
            && f.items[i].price == PriceOrZero(d.details[i].price))
      && f.total == ItemsTotal(f.items)
      && (d.details == [] ==> f.total == 0)
      && (f.thirdPartyType == "Proveedor" <==> Lower(d.compType) == "remito")
  {
    DetailsTotalMatchesItems(d.details);
  }

  // ---------------------------------------------------------------------------
  // Counterparty options

  datatype PartyOption = PartyOption(code: string, caption: string)  // `caption` is the option's label

  /** `${type} ${code} (${type.toLowerCase()})`. */
  function OptionOf(d: Document): PartyOption
  {
    PartyOption(d.thirdPartyCode, d.thirdPartyType + " " + d.thirdPartyCode + " (" + Lower(d.thirdPartyType) + ")")
  }

  function IndexOfCode(m: seq<PartyOption>, code: string): (r: Option<nat>)
    ensures r.Some? ==> r.value < |m| && m[r.value].code == code
    ensures r.None? ==> forall o :: o in m ==> o.code != code
  {
    if m == [] then None
    else if m[0].code == code then Some(0)
    else match IndexOfCode(m[1..], code)
      case None => None
      case Some(k) => Some(k + 1)
  }

  /** `map.set(code, option)` on a JS Map: an existing code keeps its position and
      takes the new value; a new code goes at the end. */
  function MapSet(m: seq<PartyOption>, o: PartyOption): seq<PartyOption>
  {
    match IndexOfCode(m, o.code)
    case Some(i) => m[i := o]
    case None => m + [o]
  }

  /** `new Map(entries).values()`: one option per code, in order of first
      appearance, each the last one given for its code. */
  function Dedupe(entries: seq<PartyOption>): seq<PartyOption>
  {
    if entries == [] then [] else MapSet(Dedupe(entries[..|entries| - 1]), entries[|entries| - 1])
  }

  predicate DistinctCodes(m: seq<PartyOption>)
  {
    forall i, j :: 0 <= i < j < |m| ==> m[i].code != m[j].code
  }

  /** The last entry given for a code, if any. */
  function LastWithCode(entries: seq<PartyOption>, code: string): Option<PartyOption>
  {
    if entries == [] then None
    else if entries[|entries| - 1].code == code then Some(entries[|entries| - 1])
    else LastWithCode(entries[..|entries| - 1], code)
  }

  /** The Map keeps one entry per code. */
  lemma {:induction false} DedupeDistinct(entries: seq<PartyOption>)
    ensures DistinctCodes(Dedupe(entries))
  {
    if entries != [] {
      var m := Dedupe(entries[..|entries| - 1]);
      var last := entries[|entries| - 1];
      DedupeDistinct(entries[..|entries| - 1]);
      match IndexOfCode(m, last.code)
      case Some(i) =>
        assert forall k :: 0 <= k < |m| ==> m[i := last][k].code == m[k].code;
      case None =>
        assert forall k :: 0 <= k < |m| ==> m[k] in m;
    }
  }

  /** Each option of the Map is the last entry given for its code. */
  lemma {:induction false} DedupeKeepsLast(entries: seq<PartyOption>)
    ensures forall o :: o in Dedupe(entries) ==> LastWithCode(entries, o.code) == Some(o)
  {
    if entries != [] {
      var m := Dedupe(entries[..|entries| - 1]);
      var last := entries[|entries| - 1];
      DedupeKeepsLast(entries[..|entries| - 1]);
      match IndexOfCode(m, last.code)
      case Some(i) =>
        var r := m[i := last];
        forall o: PartyOption | o in r
          ensures LastWithCode(entries, o.code) == Some(o)
        {
          var k :| 0 <= k < |r| && r[k] == o;
          if k != i {
            assert m[k] in m;
            DedupeDistinct(entries[..|entries| - 1]);
          }
        }
      case None =>
        forall o: PartyOption | o in m + [last]
          ensures LastWithCode(entries, o.code) == Some(o)
        {
          if o != last {
            assert o in m;
          }
        }
    }
  }

  /** Every code of the entries has its option in the Map. */
  lemma {:induction false} DedupeCovers(entries: seq<PartyOption>)
    ensures forall e :: e in entries ==> exists o :: o in Dedupe(entries) && o.code == e.code
  {
    if entries != [] {
      var init := entries[..|entries| - 1];
      var m := Dedupe(init);
      var last := entries[|entries| - 1];
      DedupeCovers(init);
      var r := Dedupe(entries);
      assert exists o :: o in r && o.code == last.code by {
        match IndexOfCode(m, last.code)
        case Some(i) => assert r[i] in r;
        case None => assert r[|m|] in r;
      }
      forall e | e in entries
        ensures exists o :: o in r && o.code == e.code
      {
        var j :| 0 <= j < |entries| && entries[j] == e;
        if j < |entries| - 1 {
          assert init[j] == e;
          var o :| o in m && o.code == e.code;
          var k :| 0 <= k < |m| && m[k] == o;
          assert r[k].code == e.code && r[k] in r by {
            match IndexOfCode(m, last.code)
            case Some(i) =>
            case None =>
          }
        }
      }
    }
  }

  /** String order by character code; `localeCompare` is approximated by it. */
  predicate LabelLeq(a: string, b: string)
  {
    a == [] || (b != [] && (a[0] < b[0] || (a[0] == b[0] && LabelLeq(a[1..], b[1..]))))
  }

  lemma {:induction false} LabelLeqTotal(a: string, b: string)
    ensures LabelLeq(a, b) || LabelLeq(b, a)
  {
    if a != [] && b != [] && a[0] == b[0] {
      LabelLeqTotal(a[1..], b[1..]);
    }
  }

  lemma {:induction false} LabelLeqTransitive(a: string, b: string, c: string)
    requires LabelLeq(a, b) && LabelLeq(b, c)
    ensures LabelLeq(a, c)
  {
    if a != [] && b != [] && c != [] && a[0] == b[0] == c[0] {
      LabelLeqTransitive(a[1..], b[1..], c[1..]);
    }
  }

  predicate SortedByLabel(s: seq<PartyOption>)
  {
    forall i :: 0 <= i < |s| - 1 ==> LabelLeq(s[i].caption, s[i + 1].caption)
  }

  function InsertByLabel(o: PartyOption, s: seq<PartyOption>): (r: seq<PartyOption>)
    ensures |r| == |s| + 1
    ensures forall x :: x in r <==> x == o || x in s
    ensures multiset(r) == multiset(s) + multiset{o}
  {
    if s == [] then [o]
    else if LabelLeq(o.caption, s[0].caption) then [o] + s
    else
      assert s == [s[0]] + s[1..];
      [s[0]] + InsertByLabel(o, s[1..])
  }

  lemma {:induction false} InsertSorted(o: PartyOption, s: seq<PartyOption>)
    requires SortedByLabel(s)
    ensures SortedByLabel(InsertByLabel(o, s))
    ensures s != [] && InsertByLabel(o, s)[0] != o ==> InsertByLabel(o, s)[0] == s[0]
  {
    if s != [] && !LabelLeq(o.caption, s[0].caption) {
      InsertSorted(o, s[1..]);
      LabelLeqTotal(o.caption, s[0].caption);
    }
  }

  lemma {:induction false} InsertDistinct(o: PartyOption, s: seq<PartyOption>)
    requires DistinctCodes(s)
    requires forall x :: x in s ==> x.code != o.code
    ensures DistinctCodes(InsertByLabel(o, s))
  {
    if s != [] && !LabelLeq(o.caption, s[0].caption) {
      InsertDistinct(o, s[1..]);
      var rest := InsertByLabel(o, s[1..]);
      assert forall j :: 0 <= j < |rest| ==> rest[j] in rest;
      assert forall x :: x in s[1..] ==> x.code != s[0].code by {
        forall x | x in s[1..] ensures x.code != s[0].code {
          var k :| 0 <= k < |s[1..]| && s[1..][k] == x;
          assert s[k + 1] == x;
        }
      }
    }
  }

  /** `.sort((a, b) => a.caption.localeCompare(b.caption))`, as an insertion sort. */
  function SortByLabel(s: seq<PartyOption>): (r: seq<PartyOption>)
    ensures |r| == |s|
    ensures forall x :: x in r <==> x in s
    ensures multiset(r) == multiset(s)
  {
    if s == [] then []
    else
      assert s == [s[0]] + s[1..];
      InsertByLabel(s[0], SortByLabel(s[1..]))
  }

  /** The sort orders by label, keeps the options and keeps their codes distinct. */
  lemma {:induction false} SortByLabelFacts(s: seq<PartyOption>)
    ensures SortedByLabel(SortByLabel(s))
    ensures DistinctCodes(s) ==> DistinctCodes(SortByLabel(s))
  {
    if s != [] {
      SortByLabelFacts(s[1..]);
      InsertSorted(s[0], SortByLabel(s[1..]));
      if DistinctCodes(s) {
        assert DistinctCodes(s[1..]);
        assert forall x :: x in s[1..] ==> x.code != s[0].code by {
          forall x | x in s[1..] ensures x.code != s[0].code {
            var k :| 0 <= k < |s[1..]| && s[1..][k] == x;
            assert s[k + 1] == x;
          }
        }
        InsertDistinct(s[0], SortByLabel(s[1..]));
      }
    }
  }

  function ThirdPartyOptions(docs: seq<Document>): seq<PartyOption>
  {
    SortByLabel(Dedupe(seq(|docs|, i requires 0 <= i < |docs| => OptionOf(docs[i]))))
  }

  /** The options hold exactly one entry per counterparty code of the documents,
      labelled from the last document with that code, sorted by label. */
  lemma ThirdPartyOptionsFacts(docs: seq<Document>)
    ensures var r := ThirdPartyOptions(docs);
      var entries := seq(|docs|, i requires 0 <= i < |docs| => OptionOf(docs[i]));
      && SortedByLabel(r)
      && DistinctCodes(r)
      && (forall o :: o in r ==> LastWithCode(entries, o.code) == Some(o))
      && (forall d :: d in docs ==> exists o :: o in r && o.code == d.thirdPartyCode)
  {
    var entries := seq(|docs|, i requires 0 <= i < |docs| => OptionOf(docs[i]));
    DedupeDistinct(entries);
    DedupeKeepsLast(entries);
    DedupeCovers(entries);
    SortByLabelFacts(Dedupe(entries));
    forall d | d in docs
      ensures exists o :: o in ThirdPartyOptions(docs) && o.code == d.thirdPartyCode
    {
      var k :| 0 <= k < |docs| && docs[k] == d;
      assert entries[k] in entries;
    }
  }

  // ---------------------------------------------------------------------------
  // Filter

  /** The filter form: type, status, counterparty and the two dates as typed. */
  datatype FilterForm = FilterForm(compType: string, statusId: string, thirdPartyCode: string, startDate: string, endDate: string)

  /** `x || undefined`. */
  function OrUndefined(s: string): Option<string>
  {
    if s == "" then None else Some(s)
  }

  /** The filter object of handleFilter before pruning. `startIso` and `endIso`
      are the dates converted to ISO text. */
  function FilterParams(f: FilterForm, startIso: string, endIso: string): seq<(string, Option<string>)>
  {
    [("type", OrUndefined(f.compType)),
     ("statusId", OrUndefined(f.statusId)),
     ("thirdPartyCode", OrUndefined(f.thirdPartyCode)),
     ("from", if f.startDate != "" then Some(startIso) else None),
     ("to", if f.endDate != "" then Some(endIso) else None)]
  }

  /** The entries with a value, in order. */
  function Defined(params: seq<(string, Option<string>)>): seq<(string, string)>
  {
    if params == [] then []
    else Defined(params[..|params| - 1])
         + (if params[|params| - 1].1.Some? then [(params[|params| - 1].0, params[|params| - 1].1.value)] else [])
  }

  lemma {:induction false} DefinedMembers(params: seq<(string, Option<string>)>)
    ensures forall k, v :: (k, v) in Defined(params) <==> (k, Some(v)) in params
  {
    if params != [] {
      DefinedMembers(params[..|params| - 1]);
      assert params == params[..|params| - 1] + [params[|params| - 1]];
    }
  }

  /** The `forEach` that deletes the undefined keys. */
  method PruneUndefined(params: seq<(string, Option<string>)>) returns (kept: seq<(string, string)>)
    ensures kept == Defined(params)
  {
    kept := [];
    var i := 0;
    while i < |params|
      invariant 0 <= i <= |params|
      invariant kept == Defined(params[..i])
    {
      assert params[..i + 1][..i] == params[..i];
      if params[i].1.Some? {
        kept := kept + [(params[i].0, params[i].1.value)];
      }
      i := i + 1;
    }
    assert params[..i] == params;
  }

  /** A field is sent exactly when its input is non-empty, and then with that
      input; no field is sent without a value. */
  lemma FilterKeepsFilled(f: FilterForm, startIso: string, endIso: string)
    ensures var sent := Defined(FilterParams(f, startIso, endIso));
      && (f.compType != "" <==> ("type", f.compType) in sent)
      && (f.statusId != "" <==> ("statusId", f.statusId) in sent)
      && (f.thirdPartyCode != "" <==> ("thirdPartyCode", f.thirdPartyCode) in sent)
      && (f.startDate != "" <==> ("from", startIso) in sent)
      && (f.endDate != "" <==> ("to", endIso) in sent)
      && |sent| <= 5
  {
    var params := FilterParams(f, startIso, endIso);
    DefinedMembers(params);
    DefinedShorter(params);
  }

  lemma {:induction false} DefinedShorter(params: seq<(string, Option<string>)>)
    ensures |Defined(params)| <= |params|
  {
    if params != [] {
      DefinedShorter(params[..|params| - 1]);
    }
  }
}
