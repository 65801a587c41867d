/**
 * The order page (Order): the status badge's colour and French label, the
 * short order number shown in the title, and the amount of each ordered line.
 */
module OrderView {
  import opened Wrappers

  /** The five statuses the backend records for an order. */
  datatype Status = Pending | Processing | Shipped | Delivered | Cancelled

  /** The status as it is spelt in the order's JSON. */
  function StatusName(s: Status): string {
    match s
    case Pending => "pending"
    case Processing => "processing"
    case Shipped => "shipped"
    case Delivered => "delivered"
    case Cancelled => "cancelled"
  }

  /** The key of the lookup tables that `status` hits, if any. */
  function ParseStatus(status: string): (r: Option<Status>)
    ensures r.Some? ==> StatusName(r.value) == status
    ensures r.None? ==> forall s: Status :: StatusName(s) != status
  {
    if status == "pending" then Some(Pending)
    else if status == "processing" then Some(Processing)
    else if status == "shipped" then Some(Shipped)
    else if status == "delivered" then Some(Delivered)
    else if status == "cancelled" then Some(Cancelled)
    else None
  }

  /** Every status name is read back as that status. */
  lemma ParseStatusName(s: Status)
    ensures ParseStatus(StatusName(s)) == Some(s)
  {
  }

  /** The `colors` table. */
  function Color(s: Status): string {
    match s
    case Pending => "warning"
    case Processing => "processing"
    case Shipped => "info"
    case Delivered => "success"
    case Cancelled => "error"
  }

  /** The `texts` table. */
  function Label(s: Status): string {
    match s
    case Pending => "En attente"
    case Processing => "En cours de traitement"
    case Shipped => "Expédiée"
    case Delivered => "Livrée"
    case Cancelled => "Annulée"
  }

  /** getStatusColor: `colors[status] || 'default'`. */
  function StatusColor(status: string): (color: string)
    ensures ParseStatus(status).Some? ==> color == Color(ParseStatus(status).value)
    ensures ParseStatus(status).None? ==> color == "default"
  {
    match ParseStatus(status)
    case Some(s) => Color(s)
    case None => "default"
  }

  /** getStatusText: `texts[status] || status`. */
  function StatusText(status: string): (text: string)
    ensures ParseStatus(status).Some? ==> text == Label(ParseStatus(status).value)
    ensures ParseStatus(status).None? ==> text == status
  {
    match ParseStatus(status)
    case Some(s) => Label(s)
    case None => status
  }

  /** The five known statuses get the colours warning, processing, info, success and error. */
  lemma StatusColorTable()
    ensures StatusColor("pending") == "warning"
    ensures StatusColor("processing") == "processing"
    ensures StatusColor("shipped") == "info"
    ensures StatusColor("delivered") == "success"
    ensures StatusColor("cancelled") == "error"
  {
  }

  /** The five known statuses get their French labels. */
  lemma StatusTextTable()
    ensures StatusText("pending") == "En attente"
    ensures StatusText("processing") == "En cours de traitement"
    ensures StatusText("shipped") == "Expédiée"
    ensures StatusText("delivered") == "Livrée"
    ensures StatusText("cancelled") == "Annulée"
  {
  }

  /** The badge is 'default' exactly for the statuses outside the table. */
  lemma DefaultColorIffUnknown(status: string)
    ensures StatusColor(status) == "default" <==> ParseStatus(status).None?
  {
  }

  /** The label is the raw status exactly for the statuses outside the table. */
  lemma RawTextIffUnknown(status: string)
    ensures StatusText(status) == status <==> ParseStatus(status).None?
  {
  }

  /** Distinct known statuses get distinct colours and distinct labels. */
  lemma TablesInjective(s: Status, t: Status)
    requires s != t
    ensures Color(s) != Color(t)
    ensures Label(s) != Label(t)
  {
  }

  /** `toUpperCase` on one character, for the ASCII letters. */
  function UpperChar(c: char): (u: char)
    ensures !('a' <= u <= 'z')
    ensures 'a' <= c <= 'z' ==> u as int == c as int - 32
    ensures 'A' <= c <= 'Z' || !('a' <= c <= 'z') ==> u == c
  {
    if 'a' <= c <= 'z' then (c as int - 32) as char else c
  }

  function UpperCase(s: string): (r: string)
    ensures |r| == |s|
    ensures forall i :: 0 <= i < |s| ==> r[i] == UpperChar(s[i])
  {
    if s == [] then [] else [UpperChar(s[0])] + UpperCase(s[1..])
  }

  /** `id.slice(-6)`: the last six characters, or the whole id when it is shorter. */
  function LastSix(id: string): (r: string)
    ensures |r| == Min(6, |id|)
    ensures forall i :: 0 <= i < |r| ==> r[i] == id[|id| - |r| + i]
  {
    id[Max(|id| - 6, 0)..]
  }

  /** The order number in the page title: `order._id.slice(-6).toUpperCase()`. */
  function OrderNumber(id: string): (r: string)
    ensures |r| == Min(6, |id|)
    ensures forall i :: 0 <= i < |r| ==> !('a' <= r[i] <= 'z')
  {
    UpperCase(LastSix(id))
  }

  /** The order number is the id's suffix of min(6, |id|) characters with its ASCII lower-case letters raised. */
  lemma OrderNumberIsUpperSuffix(id: string)
    ensures forall i :: 0 <= i < |OrderNumber(id)| ==>
              OrderNumber(id)[i] == UpperChar(id[|id| - |OrderNumber(id)| + i])
  {
    var tail := LastSix(id);
    var r := OrderNumber(id);
    assert |r| == |tail|;
    forall i | 0 <= i < |r|
      ensures r[i] == UpperChar(id[|id| - |r| + i])
    {
      assert r[i] == UpperChar(tail[i]);
      assert tail[i] == id[|id| - |tail| + i];
    }
  }

  /** One ordered line (also the shape of a cart line at checkout). */
  datatype LineItem = LineItem(id: string, name: string, price: nat, quantity: nat)

  /** The amounts shown beside the lines, in order: `item.price * item.quantity`. */
  function LineAmounts(items: seq<LineItem>): (r: seq<nat>)
    ensures |r| == |items|
    ensures forall i :: 0 <= i < |items| ==> r[i] == items[i].price * items[i].quantity
  {
    if items == [] then []
    else [items[0].price * items[0].quantity] + LineAmounts(items[1..])
  }
}
