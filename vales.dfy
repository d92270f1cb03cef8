/** The voucher and stock page: mechanics' vouchers kept through the
    offline-data hook, and a local stock list with its low-stock warning,
    its add/edit/delete rules and the guard that keeps items named by a
    voucher from being deleted. */
module Vales {
  import opened Options
  import Lists
  import Text
  import Mecanicos
  import OfflineData

  datatype StatusVale = Pendente | Pago | Cancelado

  /** A voucher (an advance paid to a mechanic). A new voucher is sent without
      an id, which reads here as "". */
  datatype Vale = Vale(
    id: string,
    data: string,
    mecanicoId: string,
    mecanicoNome: string,
    valor: real,
    descricao: string,
    status: StatusVale,
    createdAt: Option<string>)

  function ValeId(v: Vale): string {
    v.id
  }

  datatype ValeForm = ValeForm(
    data: string,
    mecanicoId: string,
    mecanicoNome: string,
    valor: real,
    descricao: string,
    status: StatusVale)

  datatype ItemEstoque = ItemEstoque(id: string, nome: string, quantidade: real, valorUnitario: real, estoqueMinimo: real)

  function ItemId(item: ItemEstoque): string {
    item.id
  }

  datatype EstoqueForm = EstoqueForm(nome: string, quantidade: real, valorUnitario: real, estoqueMinimo: real)

  /** The stock the page starts with. */
  const MockEstoque: seq<ItemEstoque> := [
    ItemEstoque("1", "Óleo de Motor 5W30", 15.0, 35.9, 5.0),
    ItemEstoque("2", "Filtro de Óleo", 12.0, 25.5, 4.0),
    ItemEstoque("3", "Filtro de Ar", 8.0, 40.0, 3.0),
    ItemEstoque("4", "Pastilha de Freio", 6.0, 120.0, 2.0),
    ItemEstoque("5", "Fluido de Freio DOT4", 10.0, 28.5, 3.0),
    ItemEstoque("6", "Vela de Ignição", 20.0, 18.9, 4.0)
  ]

  /** `resetValeForm`, with `hoje` for today's date. */
  function ValeFormVazio(hoje: string): ValeForm {
    ValeForm(hoje, "", "", 0.0, "", Pendente)
  }

  const EstoqueFormVazio := EstoqueForm("", 0.0, 0.0, 0.0)

  function ValeFormDe(v: Vale): ValeForm {
    ValeForm(v.data, v.mecanicoId, v.mecanicoNome, v.valor, v.descricao, v.status)
  }

  function EstoqueFormDe(item: ItemEstoque): EstoqueForm {
    EstoqueForm(item.nome, item.quantidade, item.valorUnitario, item.estoqueMinimo)
  }

  function ValeDe(f: ValeForm, id: string): Vale {
    Vale(id, f.data, f.mecanicoId, f.mecanicoNome, f.valor, f.descricao, f.status, None)
  }

  function ItemDe(f: EstoqueForm, id: string): ItemEstoque {
    ItemEstoque(id, f.nome, f.quantidade, f.valorUnitario, f.estoqueMinimo)
  }

  // ---------------------------------------------------------------------
  // Low stock

  predicate EstoqueBaixo(item: ItemEstoque) {
    item.quantidade <= item.estoqueMinimo
  }

  /** `itensComEstoqueBaixo`: exactly the items at or below their minimum, in stock order. */
  function ItensComEstoqueBaixo(estoque: seq<ItemEstoque>): (r: seq<ItemEstoque>)
    ensures Lists.IsSubsequence(r, estoque)
    ensures forall i :: 0 <= i < |r| ==> EstoqueBaixo(r[i])
    ensures forall i :: 0 <= i < |estoque| && EstoqueBaixo(estoque[i]) ==> estoque[i] in r
    ensures forall i :: 0 <= i < |estoque| && EstoqueBaixo(estoque[i]) ==>
      multiset(r)[estoque[i]] == multiset(estoque)[estoque[i]]
  {
    Lists.Filter(estoque, EstoqueBaixo)
  }

  /** The starting stock has nothing at or below its minimum. */
  lemma MockEstoqueSemAlerta()
    ensures ItensComEstoqueBaixo(MockEstoque) == []
  {
    Lists.FilterRejectsAll(MockEstoque, EstoqueBaixo);
  }

  // ---------------------------------------------------------------------
  // Voucher search

  predicate ValeCorresponde(v: Vale, termo: string) {
    var t := Text.Lower(termo);
    Text.Includes(Text.Lower(v.mecanicoNome), t) || Text.Includes(Text.Lower(v.descricao), t)
  }

  /** The search effect: no term shows every voucher; a term shows, in order,
      the vouchers whose mechanic name or description contains it. */
  function ValesFiltrados(vales: seq<Vale>, termo: string): (r: seq<Vale>)
    ensures termo == "" ==> r == vales
    ensures Lists.IsSubsequence(r, vales)
    ensures forall i :: 0 <= i < |r| ==> ValeCorresponde(r[i], termo)
    ensures forall i :: 0 <= i < |vales| && ValeCorresponde(vales[i], termo) ==> vales[i] in r
    ensures forall i :: 0 <= i < |vales| && ValeCorresponde(vales[i], termo) ==>
      multiset(r)[vales[i]] == multiset(vales)[vales[i]]
  {
    if termo != "" then
      Lists.Filter(vales, v => ValeCorresponde(v, termo))
    else
      EmptyTermMatchesAll(vales);
      vales
  }

  /** Filtering by the empty term would keep everything too, so the effect's
      separate empty-term branch agrees with its filter. */
  lemma EmptyTermMatchesAll(vales: seq<Vale>)
    ensures forall i :: 0 <= i < |vales| ==> ValeCorresponde(vales[i], "")
    ensures Lists.Filter(vales, v => ValeCorresponde(v, "")) == vales
  {
    Lists.FilterKeepsAll(vales, v => ValeCorresponde(v, ""));
  }

  // ---------------------------------------------------------------------
  // Stock ids

  /** The id the page gives a new stock item: the decimal string of the list's length plus one. */
  function IdAsWritten(estoque: seq<ItemEstoque>): (id: string)
    ensures Text.IsNumeral(id)
  {
    Text.NatToString(|estoque| + 1)
  }

  /** After deleting item "1" from items "1" and "2", the next item would get
      id "2", which the remaining item already has. */
  lemma AsWrittenIdCollides(a: ItemEstoque, b: ItemEstoque)
    requires a.id == "1" && b.id == "2"
    ensures Lists.RemoveKey([a, b], ItemId, "1") == [b]
    ensures IdAsWritten([b]) == b.id
  {
    var s := [a, b];
    assert ItemId(s[0]) != ItemId(s[1]);
    Lists.RemoveKeyDistinct(s, ItemId, 0);
    assert s[..0] + s[1..] == [b];
    assert Text.DigitChar(2) == '2';
  }

  /** The largest number among the ids that are decimal numerals (0 for none). */
  function MaxNumericId(estoque: seq<ItemEstoque>): (m: nat)
    ensures forall i :: 0 <= i < |estoque| && Text.IsNumeral(estoque[i].id) ==> Text.NumeralValue(estoque[i].id) <= m
    decreases |estoque|
  {
    if estoque == [] then 0
    else
      var init := estoque[..|estoque| - 1];
      var last := estoque[|estoque| - 1];
      var v := if Text.IsNumeral(last.id) then Text.NumeralValue(last.id) else 0;
      var m := MaxNumericId(init);
      assert forall i :: 0 <= i < |init| ==> estoque[i] == init[i];
      if m < v then v else m
  }

  /** The corrected id of a new stock item: one more than the largest numeric id. */
  function NextStockId(estoque: seq<ItemEstoque>): (id: string)
    ensures Text.IsNumeral(id)
    ensures !Lists.HasKey(estoque, ItemId, id)
  {
    var id := Text.NatToString(MaxNumericId(estoque) + 1);
    Text.NatToStringRoundTrip(MaxNumericId(estoque) + 1);
    assert forall i :: 0 <= i < |estoque| ==> ItemId(estoque[i]) != id;
    id
  }

  /** Stock whose ids are "1", "2", ... "n" in order, as the page starts with. */
  ghost predicate DenseIds(estoque: seq<ItemEstoque>) {
    forall i :: 0 <= i < |estoque| ==> estoque[i].id == Text.NatToString(i + 1)
  }

  /** While no item has been deleted the corrected id is the one the page computes. */
  lemma {:induction false} NextStockIdOnDenseIds(estoque: seq<ItemEstoque>)
    requires DenseIds(estoque)
    ensures MaxNumericId(estoque) == |estoque|
    ensures NextStockId(estoque) == IdAsWritten(estoque)
    decreases |estoque|
  {
    if estoque != [] {
      var init := estoque[..|estoque| - 1];
      assert DenseIds(init) by {
        forall i | 0 <= i < |init| ensures init[i].id == Text.NatToString(i + 1) {
          assert init[i] == estoque[i];
        }
      }
      NextStockIdOnDenseIds(init);
      Text.NatToStringRoundTrip(|estoque|);
    }
  }

  lemma MockEstoqueIsDense()
    ensures DenseIds(MockEstoque)
  {
    assert Text.DigitChar(1) == '1' && Text.DigitChar(2) == '2' && Text.DigitChar(3) == '3';
    assert Text.DigitChar(4) == '4' && Text.DigitChar(5) == '5' && Text.DigitChar(6) == '6';
  }

  // ---------------------------------------------------------------------
  // Stock deletion guard

  /** Some voucher's description is this name (`vales.some(v => v.descricao === nome)`). */
  predicate NomeUsadoEmVales(vales: seq<Vale>, nome: string) {
    exists j :: 0 <= j < |vales| && vales[j].descricao == nome
  }

  /** The delete is refused exactly when the first item with the id is named by a voucher. */
  function ExclusaoBloqueada(estoque: seq<ItemEstoque>, vales: seq<Vale>, id: string): (b: bool)
    ensures b <==> exists i ::
      && 0 <= i < |estoque| && estoque[i].id == id
      && (forall j :: 0 <= j < i ==> estoque[j].id != id)
      && NomeUsadoEmVales(vales, estoque[i].nome)
  {
    var i := Lists.FindIndex(estoque, ItemId, id);
    assert i >= 0 ==> estoque[i].id == id && forall j :: 0 <= j < i ==> estoque[j].id != id by {
      if i >= 0 {
        assert ItemId(estoque[i]) == id;
        forall j | 0 <= j < i ensures estoque[j].id != id {
          assert ItemId(estoque[j]) != id;
        }
      }
    }
    assert !(i >= 0) ==> forall k :: 0 <= k < |estoque| ==> estoque[k].id != id by {
      if i < 0 {
        forall k | 0 <= k < |estoque| ensures estoque[k].id != id {
          assert ItemId(estoque[k]) != id;
        }
      }
    }
    i >= 0 && NomeUsadoEmVales(vales, estoque[i].nome)
  }

  /** With two items sharing an id, the guard looks only at the first: a
      voucher naming the second does not stop the delete, and the delete
      removes both. */
  lemma DuplicateIdsDefeatGuard(a: ItemEstoque, b: ItemEstoque, v: Vale)
    requires a.id == "2" && b.id == "2" && a.nome == "A" && b.nome == "B" && v.descricao == "B"
    ensures NomeUsadoEmVales([v], b.nome)
    ensures !ExclusaoBloqueada([a, b], [v], "2")
    ensures Lists.RemoveKey([a, b], ItemId, "2") == []
  {
    assert [v][0] == v;
    Lists.RemoveKeyAllMatching([a, b], ItemId, "2");
  }

  /** With distinct ids, a delete that goes ahead never removes an item some voucher names. */
  lemma DeleteKeepsUsedItems(estoque: seq<ItemEstoque>, vales: seq<Vale>, id: string)
    requires Lists.DistinctKeys(estoque, ItemId)
    requires !ExclusaoBloqueada(estoque, vales, id)
    ensures forall i ::
      (0 <= i < |estoque| && NomeUsadoEmVales(vales, estoque[i].nome))
      ==> estoque[i] in Lists.RemoveKey(estoque, ItemId, id)
  {
    forall i | 0 <= i < |estoque| && NomeUsadoEmVales(vales, estoque[i].nome)
      ensures estoque[i] in Lists.RemoveKey(estoque, ItemId, id)
    {
      var k := Lists.FindIndex(estoque, ItemId, id);
      if k >= 0 {
        assert estoque[k].nome != estoque[i].nome;
        assert ItemId(estoque[i]) != ItemId(estoque[k]);
      }
    }
  }

  // ---------------------------------------------------------------------
  // Page state

  class ValesPage {
    const vales: OfflineData.EntityCache<Vale>
    const mecanicos: OfflineData.EntityCache<Mecanicos.Mecanico>
    var estoque: seq<ItemEstoque>
    var searchTerm: string
    var valeDialogOpen: bool
    var estoqueDialogOpen: bool
    var valeEmEdicao: Option<Vale>
    var itemEmEdicao: Option<ItemEstoque>
    var valeForm: ValeForm
    var estoqueForm: EstoqueForm

    /** The voucher cache keys vouchers by their id. */
    ghost predicate Valid() {
      vales.idOf == ValeId
    }

    constructor (vales: OfflineData.EntityCache<Vale>, mecanicos: OfflineData.EntityCache<Mecanicos.Mecanico>, hoje: string)
      requires vales.idOf == ValeId
      ensures Valid()
      ensures this.vales == vales && this.mecanicos == mecanicos
      ensures estoque == MockEstoque && searchTerm == ""
      ensures !valeDialogOpen && !estoqueDialogOpen && valeEmEdicao == None && itemEmEdicao == None
      ensures valeForm == ValeFormVazio(hoje) && estoqueForm == EstoqueFormVazio
    {
      this.vales := vales;
      this.mecanicos := mecanicos;
      estoque := MockEstoque;
      searchTerm := "";
      valeDialogOpen := false;
      estoqueDialogOpen := false;
      valeEmEdicao := None;
      itemEmEdicao := None;
      valeForm := ValeFormVazio(hoje);
      estoqueForm := EstoqueFormVazio;
    }

    /** The vouchers the table shows. */
    function Mostrados(): seq<Vale>
      reads this, vales
    {
      ValesFiltrados(vales.data, searchTerm)
    }

    method HandleSearch(termo: string)
      modifies this`searchTerm
      ensures searchTerm == termo
    {
      searchTerm := termo;
    }

    /** `handleMecanicoChange`. */
    method HandleMecanicoChange(id: string)
      modifies this`valeForm
      ensures valeForm == old(valeForm).(mecanicoId := id, mecanicoNome := Mecanicos.NomeDoMecanico(mecanicos.data, id))
    {
      valeForm := valeForm.(mecanicoId := id, mecanicoNome := Mecanicos.NomeDoMecanico(mecanicos.data, id));
    }

    method HandleOpenValeDialog(vale: Option<Vale>, hoje: string)
      modifies this`valeEmEdicao, this`valeForm, this`valeDialogOpen
      ensures valeEmEdicao == vale && valeDialogOpen
      ensures valeForm == if vale.Some? then ValeFormDe(vale.value) else ValeFormVazio(hoje)
    {
      valeEmEdicao := vale;
      valeForm := if vale.Some? then ValeFormDe(vale.value) else ValeFormVazio(hoje);
      valeDialogOpen := true;
    }

    method HandleOpenEstoqueDialog(item: Option<ItemEstoque>)
      modifies this`itemEmEdicao, this`estoqueForm, this`estoqueDialogOpen
      ensures itemEmEdicao == item && estoqueDialogOpen
      ensures estoqueForm == if item.Some? then EstoqueFormDe(item.value) else EstoqueFormVazio
    {
      itemEmEdicao := item;
      estoqueForm := if item.Some? then EstoqueFormDe(item.value) else EstoqueFormVazio;
      estoqueDialogOpen := true;
    }

    /** `handleSubmitVale`. `enviado` is the voucher handed to `saveItem`, none
        when the form is rejected (no mechanic, or a value not above zero).
        On success the dialog closes and the form resets; on failure they stay. */
    method HandleSubmitVale(online: bool, reply: OfflineData.Reply<Vale>, hoje: string)
      returns (enviado: Option<Vale>)
      requires Valid()
      modifies this`valeForm, this`valeEmEdicao, this`valeDialogOpen, vales`data
      ensures old(valeForm).mecanicoId == "" || old(valeForm).valor <= 0.0 ==>
        && enviado == None && vales.data == old(vales.data)
        && valeForm == old(valeForm) && valeDialogOpen == old(valeDialogOpen) && valeEmEdicao == old(valeEmEdicao)
      ensures old(valeForm).mecanicoId != "" && old(valeForm).valor > 0.0 ==>
        enviado == Some(ValeDe(old(valeForm), if old(valeEmEdicao).Some? then old(valeEmEdicao).value.id else ""))
      ensures enviado.Some? && online && reply.Resolved? ==>
        && vales.data == Lists.Upsert(old(vales.data), ValeId, reply.value)
        && !valeDialogOpen && valeForm == ValeFormVazio(hoje) && valeEmEdicao == None
      ensures enviado.Some? && !(online && reply.Resolved?) ==>
        && vales.data == old(vales.data)
        && valeForm == old(valeForm) && valeDialogOpen == old(valeDialogOpen) && valeEmEdicao == old(valeEmEdicao)
    {
      if valeForm.mecanicoId == "" || valeForm.valor <= 0.0 {
        return None;
      }
      var id := if valeEmEdicao.Some? then valeEmEdicao.value.id else "";
      enviado := Some(ValeDe(valeForm, id));
      var outcome := vales.SaveItem(enviado.value, online, reply);
      if outcome.Ok? {
        valeDialogOpen := false;
        valeForm := ValeFormVazio(hoje);
        valeEmEdicao := None;
      }
    }

    /** `handleDeleteVale`: once confirmed, asks the hook to delete the voucher. */
    method HandleDeleteVale(id: string, confirmado: bool, online: bool, reply: OfflineData.Reply<()>)
      requires Valid()
      modifies vales`data
      ensures !confirmado || !online || reply.Rejected? ==> vales.data == old(vales.data)
      ensures confirmado && online && reply.Resolved? ==> vales.data == Lists.RemoveKey(old(vales.data), ValeId, id)
    {
      if confirmado {
        var _ := vales.DeleteItem(id, false, online, reply);
      }
    }

    /** `handleSubmitEstoque`: rejects an empty name or a unit value not above
        zero; an edit rewrites the entries with the edited id, keeping it; a new
        item is appended under a fresh id. */
    method HandleSubmitEstoque()
      modifies this`estoque, this`estoqueForm, this`itemEmEdicao, this`estoqueDialogOpen
      ensures old(estoqueForm).nome == "" || old(estoqueForm).valorUnitario <= 0.0 ==>
        && estoque == old(estoque) && estoqueForm == old(estoqueForm)
        && itemEmEdicao == old(itemEmEdicao) && estoqueDialogOpen == old(estoqueDialogOpen)
      ensures old(estoqueForm).nome != "" && old(estoqueForm).valorUnitario > 0.0 ==>
        && !estoqueDialogOpen && estoqueForm == EstoqueFormVazio && itemEmEdicao == None
      ensures old(estoqueForm).nome != "" && old(estoqueForm).valorUnitario > 0.0 && old(itemEmEdicao).Some? ==>
        && |estoque| == |old(estoque)|
        && forall i :: 0 <= i < |estoque| ==>
             estoque[i] == if old(estoque)[i].id == old(itemEmEdicao).value.id
                           then ItemDe(old(estoqueForm), old(estoque)[i].id)
                           else old(estoque)[i]
      ensures old(estoqueForm).nome != "" && old(estoqueForm).valorUnitario > 0.0 && old(itemEmEdicao).None? ==>
        estoque == old(estoque) + [ItemDe(old(estoqueForm), NextStockId(old(estoque)))]
      ensures Lists.DistinctKeys(old(estoque), ItemId) ==> Lists.DistinctKeys(estoque, ItemId)
    {
      if estoqueForm.nome == "" || estoqueForm.valorUnitario <= 0.0 {
        return;
      }
      var form := estoqueForm;
      match itemEmEdicao {
        case Some(e) =>
          var novo := Lists.MapWhere(estoque, ItemId, e.id, (item: ItemEstoque) => ItemDe(form, item.id));
          assert forall i :: 0 <= i < |novo| ==> novo[i].id == estoque[i].id;
          estoque := novo;
        case None =>
          var id := NextStockId(estoque);
          estoque := estoque + [ItemDe(form, id)];
      }
      estoqueDialogOpen := false;
      estoqueForm := EstoqueFormVazio;
      itemEmEdicao := None;
    }

    /** `handleDeleteEstoque`: once confirmed, refuses when the first item with
        the id is named by a voucher, and otherwise drops every item with it. */
    method HandleDeleteEstoque(id: string, confirmado: bool) returns (bloqueado: bool)
      modifies this`estoque
      ensures bloqueado <==> confirmado && ExclusaoBloqueada(old(estoque), vales.data, id)
      ensures !confirmado || bloqueado ==> estoque == old(estoque)
      ensures confirmado && !bloqueado ==> estoque == Lists.RemoveKey(old(estoque), ItemId, id)
    {
      bloqueado := false;
      if confirmado {
        if ExclusaoBloqueada(estoque, vales.data, id) {
          bloqueado := true;
          return;
        }
        estoque := Lists.RemoveKey(estoque, ItemId, id);
      }
    }
  }
}
