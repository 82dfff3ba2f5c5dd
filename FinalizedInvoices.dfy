/**
 * The finalized-invoices page (src/FinalizedInvoices.js): the query URL
 * built from the filters, the list the page keeps from the response, and
 * the list after an invoice is reopened.
 */
module FinalizedInvoices {
  import opened Common
  import InvoiceStore

  /** A listed invoice; only its id matters to the list updates. */
  datatype Listed = Listed(id: int, invoiceNumber: string, partnerName: string)

  /** A decoded response body: an array of invoices, or anything else (an
      error object, null). */
  datatype Body = Array(items: seq<Listed>) | NotArray

  /** One `name=value&` pair of the query string. */
  datatype Param = Param(name: string, value: string)

  /** The pairs the filters contribute, in order: each only when its field
      is not empty. */
  function Params(partner: string, fromDate: string, toDate: string): seq<Param>
  {
    (if partner != "" then [Param("partner_id", partner)] else []) +
    (if fromDate != "" then [Param("from_date", fromDate)] else []) +
    (if toDate != "" then [Param("to_date", toDate)] else [])
  }

  /** `name=value&`. */
  function Item(p: Param): string
  {
    p.name + "=" + p.value + "&"
  }

  function Query(ps: seq<Param>): string
  {
    if ps == [] then "" else Item(ps[0]) + Query(ps[1..])
  }

  function Base(apiUrl: string): string
  {
    apiUrl + "/api/invoices/final?"
  }

  // ---- reading a query string back ----

  /** The position of the first `c` in `s`, or `|s|`. */
  function Find(s: string, c: char): (k: nat)
    ensures k <= |s|
    ensures forall i :: 0 <= i < k ==> s[i] != c
    ensures k < |s| ==> s[k] == c
  {
    if s == [] then 0 else if s[0] == c then 0 else 1 + Find(s[1..], c)
  }

  /** The pairs of a query string of `name=value&` items. */
  function ReadQuery(q: string): seq<Param>
    decreases |q|
  {
    if q == [] then []
    else
      var k := Find(q, '&');
      var item := q[..k];
      var e := Find(item, '=');
      var p := Param(item[..e], if e < |item| then item[e + 1..] else "");
      [p] + (if k < |q| then ReadQuery(q[k + 1..]) else [])
  }

  predicate Plain(s: string)
  {
    forall i :: 0 <= i < |s| ==> s[i] != '&' && s[i] != '='
  }

  lemma FindAfterPlain(a: string, c: char, rest: string)
    requires Plain(a) && (c == '&' || c == '=')
    ensures Find(a + [c] + rest, c) == |a|
  {
    if a != [] {
      assert (a + [c] + rest)[1..] == a[1..] + [c] + rest;
      FindAfterPlain(a[1..], c, rest);
    }
  }

  /** Reading the query back gives the pairs it was built from, as long as
      no name or value holds `&` or `=`. */
  lemma {:induction false} ReadQueryInverse(ps: seq<Param>)
    requires forall p :: p in ps ==> Plain(p.name) && Plain(p.value)
    ensures ReadQuery(Query(ps)) == ps
  {
    if ps != [] {
      var p := ps[0];
      assert Query(ps) == p.name + "=" + p.value + "&" + Query(ps[1..]);
      ReadItem(p.name, p.value, Query(ps[1..]));
      ReadQueryInverse(ps[1..]);
    }
  }

  /** The first item of a query is read back as the pair it was built from. */
  lemma ReadItem(name: string, value: string, rest: string)
    requires Plain(name) && Plain(value)
    ensures ReadQuery(name + "=" + value + "&" + rest) == [Param(name, value)] + ReadQuery(rest)
  {
    var item := name + "=" + value;
    var q := item + "&" + rest;
    NoAmpersandInItem(name, value);
    FindNoneBefore(item, '&', rest);
    assert q[..|item|] == item;
    assert q[|item| + 1..] == rest;
    FindAfterPlain(name, '=', value);
    assert item[..|name|] == name;
    assert item[|name| + 1..] == value;
  }

  lemma NoAmpersandInItem(name: string, value: string)
    requires Plain(name) && Plain(value)
    ensures forall i :: 0 <= i < |name + "=" + value| ==> (name + "=" + value)[i] != '&'
  {
    var item := name + "=" + value;
    forall i | 0 <= i < |item| ensures item[i] != '&' {
      if i < |name| {
        assert item[i] == name[i];
      } else if i > |name| {
        assert item[i] == value[i - |name| - 1];
      }
    }
  }

  lemma FindNoneBefore(a: string, c: char, rest: string)
    requires forall i :: 0 <= i < |a| ==> a[i] != c
    ensures Find(a + [c] + rest, c) == |a|
  {
    if a != [] {
      assert (a + [c] + rest)[1..] == a[1..] + [c] + rest;
      FindNoneBefore(a[1..], c, rest);
    }
  }

  // ---- the page ----

  class FinalizedPage {
    var invoices: seq<Listed>
    var selectedPartner: string
    var fromDate: string
    var toDate: string
    var loading: bool

    constructor()
      ensures invoices == [] && selectedPartner == "" && fromDate == "" && toDate == "" && loading
    {
      invoices := [];
      selectedPartner := "";
      fromDate := "";
      toDate := "";
      loading := true;
    }

    /** The URL `fetchInvoices` requests: the base, then each filter that
        is set, in order, each followed by `&`. */
    method InvoicesUrl(apiUrl: string) returns (url: string)
      ensures url == Base(apiUrl) + Query(Params(selectedPartner, fromDate, toDate))
    {
      url := apiUrl + "/api/invoices/final?";
      ghost var x, y, z := "", "", "";
      if selectedPartner != "" {
        url := url + Item(Param("partner_id", selectedPartner));
        x := Item(Param("partner_id", selectedPartner));
      }
      assert url == Base(apiUrl) + x;
      if fromDate != "" {
        url := url + Item(Param("from_date", fromDate));
        y := Item(Param("from_date", fromDate));
      }
      assert url == Base(apiUrl) + x + y;
      if toDate != "" {
        url := url + Item(Param("to_date", toDate));
        z := Item(Param("to_date", toDate));
      }
      assert url == Base(apiUrl) + x + y + z;
      AppendAssoc3(Base(apiUrl), x, y, z);
      QueryOfParams(selectedPartner, fromDate, toDate);
    }

    /** The response replaces the list; anything but an array, or a failed
        request, leaves it empty. */
    method Loaded(body: Option<Body>)
      modifies this
      ensures invoices == (if body.Some? && body.value.Array? then body.value.items else [])
      ensures !loading
      ensures selectedPartner == old(selectedPartner) && fromDate == old(fromDate) && toDate == old(toDate)
    {
      if body.Some? && body.value.Array? {
        invoices := body.value.items;
      } else {
        invoices := [];
      }
      loading := false;
    }

    /** `handleReopenInvoice`: after a confirm, asks for status 'draft'; a
        successful reply drops that invoice from the list, a declined
        confirm or a failed reply leaves the list as it was. */
    method Reopen(invoiceId: int, confirmed: bool, ok: bool) returns (sent: Option<(int, string)>)
      modifies this
      ensures sent == (if confirmed then Some((invoiceId, "draft")) else None)
      ensures confirmed && ok ==> invoices == WithoutId(old(invoices), invoiceId)
      ensures !(confirmed && ok) ==> invoices == old(invoices)
      ensures selectedPartner == old(selectedPartner) && fromDate == old(fromDate) && toDate == old(toDate)
    {
      if !confirmed {
        return None;
      }
      sent := Some((invoiceId, "draft"));
      if ok {
        invoices := WithoutId(invoices, invoiceId);
      }
    }
  }

  lemma AppendAssoc3(a: string, x: string, y: string, z: string)
    ensures a + x + y + z == a + (x + y + z)
  {
  }

  /** The query of the filters, one optional item after another. */
  lemma QueryOfParams(partner: string, fromDate: string, toDate: string)
    ensures Query(Params(partner, fromDate, toDate)) ==
            (if partner != "" then Item(Param("partner_id", partner)) else "") +
            (if fromDate != "" then Item(Param("from_date", fromDate)) else "") +
            (if toDate != "" then Item(Param("to_date", toDate)) else "")
  {
    var a := if partner != "" then [Param("partner_id", partner)] else [];
    var b := if fromDate != "" then [Param("from_date", fromDate)] else [];
    var c := if toDate != "" then [Param("to_date", toDate)] else [];
    QueryConcat(a + b, c);
    QueryConcat(a, b);
    QueryOfOne(partner != "", Param("partner_id", partner));
    QueryOfOne(fromDate != "", Param("from_date", fromDate));
    QueryOfOne(toDate != "", Param("to_date", toDate));
  }

  lemma QueryOfOne(present: bool, p: Param)
    ensures Query(if present then [p] else []) == if present then Item(p) else ""
  {
    if present {
      assert [p][1..] == [];
    }
  }

  lemma {:induction false} QueryConcat(xs: seq<Param>, ys: seq<Param>)
    ensures Query(xs + ys) == Query(xs) + Query(ys)
  {
    if xs != [] {
      assert (xs + ys)[1..] == xs[1..] + ys;
      QueryConcat(xs[1..], ys);
    } else {
      assert xs + ys == ys;
    }
  }

  /** `prev.filter(inv => inv.id !== invoiceId)`. */
  function WithoutId(list: seq<Listed>, id: int): seq<Listed>
  {
    if list == [] then []
    else
      var rest := WithoutId(list[..|list| - 1], id);
      var last := list[|list| - 1];
      if last.id == id then rest else rest + [last]
  }

  /** Reopening keeps every other invoice, in order, and no copy of the
      reopened one. */
  lemma {:induction false} WithoutIdKeepsOthers(list: seq<Listed>, id: int)
    ensures forall x :: x in WithoutId(list, id) <==> x in list && x.id != id
    ensures |WithoutId(list, id)| <= |list|
    ensures (forall x :: x in list ==> x.id != id) ==> WithoutId(list, id) == list
  {
    if list != [] {
      var init := list[..|list| - 1];
      WithoutIdKeepsOthers(init, id);
      assert list == init + [list[|list| - 1]];
    }
  }

  /** Removing the same invoice twice changes nothing more. */
  lemma {:induction false} WithoutIdIdempotent(list: seq<Listed>, id: int)
    ensures WithoutId(WithoutId(list, id), id) == WithoutId(list, id)
  {
    if list != [] {
      var init := list[..|list| - 1];
      WithoutIdIdempotent(init, id);
      var rest := WithoutId(init, id);
      var last := list[|list| - 1];
      if last.id != id {
        assert (rest + [last])[..|rest|] == rest;
      }
    }
  }

  /** The reopen request asks for a status the server accepts. */
  lemma ReopenStatusAccepted()
    ensures InvoiceStore.AllowedStatus("draft")
  {
  }

  /** Each filter contributes its pair exactly when it is set, and only
      the three filter names ever appear. */
  lemma ParamsPresentIff(partner: string, fromDate: string, toDate: string)
    ensures var ps := Params(partner, fromDate, toDate);
      && |ps| <= 3
      && (Param("partner_id", partner) in ps <==> partner != "")
      && (Param("from_date", fromDate) in ps <==> fromDate != "")
      && (Param("to_date", toDate) in ps <==> toDate != "")
      && (forall p :: p in ps ==> p.name in {"partner_id", "from_date", "to_date"})
  {
  }

  /** With no filter set the URL ends right after the `?`. */
  lemma NoFiltersBareUrl(apiUrl: string)
    ensures Base(apiUrl) + Query(Params("", "", "")) == apiUrl + "/api/invoices/final?"
  {
  }

  /** The filters can be read back from the URL's query string, as long as
      they hold no `&` or `=`. */
  lemma UrlCarriesFilters(apiUrl: string, partner: string, fromDate: string, toDate: string)
    requires Plain(partner) && Plain(fromDate) && Plain(toDate)
    ensures var url := Base(apiUrl) + Query(Params(partner, fromDate, toDate));
      url[..|Base(apiUrl)|] == Base(apiUrl) &&
      ReadQuery(url[|Base(apiUrl)|..]) == Params(partner, fromDate, toDate)
  {
    var url := Base(apiUrl) + Query(Params(partner, fromDate, toDate));
    assert url[|Base(apiUrl)|..] == Query(Params(partner, fromDate, toDate));
    var ps := Params(partner, fromDate, toDate);
    assert Plain("partner_id") && Plain("from_date") && Plain("to_date");
    forall p | p in ps ensures Plain(p.name) && Plain(p.value) { }
    ReadQueryInverse(ps);
  }
}
