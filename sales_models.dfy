/**
 * The sales order's status summary and the order line's subtotal. The summary
 * describes an order by how many of its lines are released for production: none at
 * all, every line, no line, or some of them.
 */
module SalesModels {
  import opened Text

  /** `PedidoItem.STATUS_CHOICES`. */
  datatype ItemStatus = PendenteCadastro | LiberadoProducao | EmProducao | Concluido | Cancelado

  /** A line counts as released once it is cleared for production, in production or done. */
  predicate Released(s: ItemStatus) {
    s == LiberadoProducao || s == EmProducao || s == Concluido
  }

  /** `sum(1 for i in items if i.status in [...])` */
  function CountReleased(items: seq<ItemStatus>): (n: nat)
    ensures n <= |items|
  {
    if items == [] then 0
    else CountReleased(items[..|items| - 1]) + (if Released(items[|items| - 1]) then 1 else 0)
  }

  predicate AllReleased(items: seq<ItemStatus>) {
    forall i :: 0 <= i < |items| ==> Released(items[i])
  }

  predicate NoneReleased(items: seq<ItemStatus>) {
    forall i :: 0 <= i < |items| ==> !Released(items[i])
  }

  /** The dictionary `status_info` returns. */
  datatype StatusInfo = StatusInfo(display: string, color: string, pendingMsg: string)

  const Grey := "#bdc3c7"
  const Green := "#27ae60"
  const Orange := "#f39c12"
  const Blue := "#3498db"

  /** `Pedido.status_info` over the statuses of the order's lines. */
  function StatusInfoOf(items: seq<ItemStatus>): StatusInfo {
    var total := |items|;
    if total == 0 then StatusInfo("Vazio", Grey, "")
    else
      var liberados := CountReleased(items);
      if liberados == total then StatusInfo("LIBERADO PRODUÇÃO", Green, "")
      else if liberados == 0 then StatusInfo("PENDENTE TÉCNICO", Orange, NatToString(total) + " itens pendentes")
      else
        var pendentes := total - liberados;
        StatusInfo("PARCIAL", Blue, NatToString(pendentes) + " de " + NatToString(total) + " itens pendentes")
  }

  /** `status_display`: `LIBERADO PRODUÇÃO` exactly when the order has lines and all are released. */
  function StatusDisplay(items: seq<ItemStatus>): (d: string)
    ensures d == "Vazio" <==> items == []
    ensures d == "LIBERADO PRODUÇÃO" <==> items != [] && AllReleased(items)
    ensures d == "PENDENTE TÉCNICO" <==> items != [] && NoneReleased(items)
    ensures d == "PARCIAL" <==> !AllReleased(items) && !NoneReleased(items)
  {
    AllReleasedIff(items);
    NoneReleasedIff(items);
    StatusInfoOf(items).display
  }

  /** `status_color`: the colour of the summary, one per display text. */
  function StatusColor(items: seq<ItemStatus>): (c: string)
    ensures c == Grey <==> StatusDisplay(items) == "Vazio"
    ensures c == Green <==> StatusDisplay(items) == "LIBERADO PRODUÇÃO"
    ensures c == Orange <==> StatusDisplay(items) == "PENDENTE TÉCNICO"
    ensures c == Blue <==> StatusDisplay(items) == "PARCIAL"
  {
    StatusInfoOf(items).color
  }

  /** `pending_msg`: empty exactly when nothing is pending (including the empty order). */
  function PendingMsg(items: seq<ItemStatus>): (m: string)
    ensures m == "" <==> AllReleased(items)
  {
    AllReleasedIff(items);
    StatusInfoOf(items).pendingMsg
  }

  /** The count reaches the number of lines exactly when every line is released. */
  lemma {:induction false} AllReleasedIff(items: seq<ItemStatus>)
    ensures CountReleased(items) == |items| <==> AllReleased(items)
    decreases |items|
  {
    if items != [] {
      var front := items[..|items| - 1];
      AllReleasedIff(front);
      assert forall i :: 0 <= i < |front| ==> front[i] == items[i];
    }
  }

  /** The count is zero exactly when no line is released. */
  lemma {:induction false} NoneReleasedIff(items: seq<ItemStatus>)
    ensures CountReleased(items) == 0 <==> NoneReleased(items)
    decreases |items|
  {
    if items != [] {
      var front := items[..|items| - 1];
      NoneReleasedIff(front);
      assert forall i :: 0 <= i < |front| ==> front[i] == items[i];
    }
  }

  /** A cancelled line is never released, so it keeps the order pending. */
  lemma CanceladoPending(items: seq<ItemStatus>)
    requires Cancelado in items
    ensures StatusDisplay(items) != "LIBERADO PRODUÇÃO"
    ensures PendingMsg(items) != ""
  {
    var i :| 0 <= i < |items| && items[i] == Cancelado;
    assert !Released(items[i]);
  }

  /**
   * A partial order reports `{pendentes} de {total} itens pendentes`, where the pending
   * count is the number of unreleased lines, strictly between none and all of them.
   */
  lemma PartialCounts(items: seq<ItemStatus>)
    requires !AllReleased(items) && !NoneReleased(items)
    ensures var pendentes := |items| - CountReleased(items);
            0 < pendentes < |items|
            && PendingMsg(items) == NatToString(pendentes) + " de " + NatToString(|items|) + " itens pendentes"
  {
    AllReleasedIff(items);
    NoneReleasedIff(items);
    PartialInfo(items, CountReleased(items));
  }

  lemma PartialInfo(items: seq<ItemStatus>, liberados: nat)
    requires liberados == CountReleased(items) && 0 < liberados < |items|
    ensures PendingMsg(items)
            == NatToString(|items| - liberados) + " de " + NatToString(|items|) + " itens pendentes"
  {
  }

  /** A wholly pending order reports `{total} itens pendentes`. */
  lemma PendingCounts(items: seq<ItemStatus>)
    requires StatusDisplay(items) == "PENDENTE TÉCNICO"
    ensures PendingMsg(items) == NatToString(|items|) + " itens pendentes"
  {
    AllReleasedIff(items);
    NoneReleasedIff(items);
  }

  /** An order line: only the fields its `save` reads and writes. */
  class PedidoItem {
    var quantidade: int
    var precoUnitario: real
    var subtotal: real

    constructor (quantidade: int, precoUnitario: real)
      ensures this.quantidade == quantidade && this.precoUnitario == precoUnitario
      ensures subtotal == 0.0
    {
      this.quantidade := quantidade;
      this.precoUnitario := precoUnitario;
      subtotal := 0.0;
    }

    /** Recompute the subtotal when price and quantity are both set; otherwise keep it. */
    method Save()
      modifies this
      ensures quantidade == old(quantidade) && precoUnitario == old(precoUnitario)
      ensures precoUnitario != 0.0 && quantidade != 0 ==> subtotal == precoUnitario * quantidade as real
      ensures precoUnitario == 0.0 || quantidade == 0 ==> subtotal == old(subtotal)
    {
      if precoUnitario != 0.0 && quantidade != 0 {
        subtotal := precoUnitario * quantidade as real;
      }
    }
  }
}
