/** The service-order page: the rules it applies to its list of services
    (status cycle, WhatsApp thank-you link, phone-field normalisation, form
    validation, search filter) and the page state those rules update. */
module Servicos {
  import opened Options
  import Lists
  import Text
  import Mecanicos

  datatype Status = EmAndamento | Concluido | Cancelado

  /** A service order. An absent `clienteAgradecido` reads as false. */
  datatype Servico = Servico(
    id: string,
    data: string,
    cliente: string,
    veiculo: string,
    descricao: string,
    mecanicoId: string,
    mecanicoNome: string,
    valor: real,
    telefone: string,
    status: Status,
    clienteAgradecido: bool)

  function ServicoId(s: Servico): string {
    s.id
  }

  /** The dialog's form: every field of a service but its id. */
  datatype Formulario = Formulario(
    data: string,
    cliente: string,
    veiculo: string,
    descricao: string,
    mecanicoId: string,
    mecanicoNome: string,
    valor: real,
    telefone: string,
    status: Status,
    clienteAgradecido: bool)

  /** `resetarFormulario`'s values; `hoje` is today's date. The name of the
      mechanic is absent there, which reads as "". */
  function FormularioVazio(hoje: string): Formulario {
    Formulario(hoje, "", "", "", "", "", 0.0, "699", EmAndamento, false)
  }

  /** `abrirEdicao` copies the service into the form. */
  function FormularioDe(s: Servico): Formulario {
    Formulario(s.data, s.cliente, s.veiculo, s.descricao, s.mecanicoId, s.mecanicoNome,
               s.valor, s.telefone, s.status, s.clienteAgradecido)
  }

  /** `{ ...formData, id }`. */
  function ServicoDe(f: Formulario, id: string): Servico {
    Servico(id, f.data, f.cliente, f.veiculo, f.descricao, f.mecanicoId, f.mecanicoNome,
            f.valor, f.telefone, f.status, f.clienteAgradecido)
  }

  // ---------------------------------------------------------------------
  // Status cycle

  /** em_andamento -> concluido -> cancelado -> em_andamento. */
  function ProximoStatus(s: Status): (t: Status)
    ensures t != s
  {
    match s
    case EmAndamento => Concluido
    case Concluido => Cancelado
    case Cancelado => EmAndamento
  }

  /** The cycle has period exactly three. */
  lemma StatusCycle(s: Status)
    ensures ProximoStatus(ProximoStatus(ProximoStatus(s))) == s
    ensures ProximoStatus(ProximoStatus(s)) != s
  {
  }

  // ---------------------------------------------------------------------
  // WhatsApp thank-you link

  const WaMe := "https://wa.me/55"

  /** `gerarLinkWhatsApp`. The message body (a fixed text with the mechanic's
      name percent-encoded into it) is the input `mensagem`. */
  function GerarLinkWhatsApp(telefone: string, mensagem: string): (link: Option<string>)
    ensures link.None? <==> |Text.Digits(telefone)| != 11
    ensures link.Some? ==>
      && |link.value| == |WaMe| + 17 + |mensagem|
      && WaMe <= link.value
      && link.value[|WaMe|..|WaMe| + 11] == Text.Digits(telefone)
      && link.value[|WaMe| + 11..] == "?text=" + mensagem
  {
    var numero := Text.Digits(telefone);
    if |numero| != 11 then None
    else
      var link := WaMe + numero + "?text=" + mensagem;
      assert link[..|WaMe|] == WaMe;
      assert link[|WaMe|..|WaMe| + 11] == numero;
      Some(link)
  }

  /** A phone written as exactly eleven digits goes into the link unchanged. */
  lemma LinkOfDigitPhone(telefone: string, mensagem: string)
    requires |telefone| == 11 && forall i :: 0 <= i < |telefone| ==> Text.IsDigit(telefone[i])
    ensures GerarLinkWhatsApp(telefone, mensagem) == Some(WaMe + telefone + "?text=" + mensagem)
  {
    Text.DigitsOfDigitString(telefone);
  }

  /** The form accepts any eleven characters that start with 699, digits or
      not; such a phone with a non-digit in it yields no link. */
  lemma AcceptedPhoneWithoutLink(telefone: string, mensagem: string, i: nat)
    requires |telefone| == 11 && Text.StartsWith(telefone, "699")
    requires i < |telefone| && !Text.IsDigit(telefone[i])
    ensures GerarLinkWhatsApp(telefone, mensagem) == None
  {
    Lists.FilterDropsRejected(telefone, Text.IsDigit, i);
  }

  // ---------------------------------------------------------------------
  // Phone field

  function Min(a: int, b: int): int {
    if a < b then a else b
  }

  /** What the phone field holds after an edit: "699" followed by the
      characters the user typed at positions 3 to 10. */
  function TelefoneNormalizado(value: string): string {
    "699" + (if |value| < 3 then "" else value[3..Min(|value|, 11)])
  }

  /** The phone branch of `handleInputChange`, step by step. */
  method NormalizarTelefone(value: string) returns (tel: string)
    ensures tel == TelefoneNormalizado(value)
  {
    tel := value;
    // cleared field: start again from "699"
    if |tel| < 3 {
      tel := "699";
    }
    // at most eleven characters
    if |tel| > 11 {
      tel := tel[..11];
    }
    // force the 699 prefix
    if !Text.StartsWith(tel, "699") {
      tel := "699" + tel[3..];
    } else {
      assert tel == tel[..3] + tel[3..];
    }
  }

  /** The field always starts with 699, is 3 to 11 long, and keeps what was
      typed after the prefix. */
  lemma TelefoneNormalizadoShape(value: string)
    ensures Text.StartsWith(TelefoneNormalizado(value), "699")
    ensures |TelefoneNormalizado(value)| == if |value| < 3 then 3 else Min(|value|, 11)
    ensures forall i :: 3 <= i < |TelefoneNormalizado(value)| ==> TelefoneNormalizado(value)[i] == value[i]
  {
  }

  /** Normalising twice is normalising once. */
  lemma TelefoneNormalizadoIdempotent(value: string)
    ensures TelefoneNormalizado(TelefoneNormalizado(value)) == TelefoneNormalizado(value)
  {
    var t := TelefoneNormalizado(value);
    assert t[3..Min(|t|, 11)] == t[3..];
  }

  /** Every phone the form accepts is left alone by the field. */
  lemma AcceptedPhoneIsFixed(value: string)
    requires |value| == 11 && Text.StartsWith(value, "699")
    ensures TelefoneNormalizado(value) == value
  {
    assert value == value[..3] + value[3..];
  }

  // ---------------------------------------------------------------------
  // Form validation

  datatype Campo = Cliente | Veiculo | Descricao | MecanicoId | Valor | Telefone

  const MsgCliente := "Nome do cliente é obrigatório"
  const MsgVeiculo := "Veículo é obrigatório"
  const MsgDescricao := "Descrição do serviço é obrigatória"
  const MsgMecanico := "Selecione um mecânico"
  const MsgValor := "Valor deve ser maior que zero"
  const MsgTelefoneFormato := "Telefone deve estar no formato (DD)9XXXXXXXX"
  const MsgTelefonePrefixo := "Telefone deve começar com 699 (Rondônia)"

  const Campos: set<Campo> := {Cliente, Veiculo, Descricao, MecanicoId, Valor, Telefone}

  /** Whether field `c` of the form fails its check. */
  predicate Falha(f: Formulario, c: Campo) {
    match c
    case Cliente => Text.IsBlank(f.cliente)
    case Veiculo => Text.IsBlank(f.veiculo)
    case Descricao => Text.IsBlank(f.descricao)
    case MecanicoId => f.mecanicoId == ""
    case Valor => f.valor <= 0.0
    case Telefone => !(|f.telefone| == 11 && Text.StartsWith(f.telefone, "699"))
  }

  /** The message for a failing field; a phone of the wrong length is reported
      before a wrong prefix. */
  function Mensagem(f: Formulario, c: Campo): string {
    match c
    case Cliente => MsgCliente
    case Veiculo => MsgVeiculo
    case Descricao => MsgDescricao
    case MecanicoId => MsgMecanico
    case Valor => MsgValor
    case Telefone => if |f.telefone| != 11 then MsgTelefoneFormato else MsgTelefonePrefixo
  }

  /** The error object `validarFormulario` builds: a field has an entry exactly
      when it fails its check, with that check's message. */
  function ErrosDoFormulario(f: Formulario): (r: map<Campo, string>)
    ensures Cliente in r <==> Text.IsBlank(f.cliente)
    ensures Veiculo in r <==> Text.IsBlank(f.veiculo)
    ensures Descricao in r <==> Text.IsBlank(f.descricao)
    ensures MecanicoId in r <==> f.mecanicoId == ""
    ensures Valor in r <==> f.valor <= 0.0
    ensures Telefone in r <==> !(|f.telefone| == 11 && Text.StartsWith(f.telefone, "699"))
    ensures Cliente in r ==> r[Cliente] == MsgCliente
    ensures Veiculo in r ==> r[Veiculo] == MsgVeiculo
    ensures Descricao in r ==> r[Descricao] == MsgDescricao
    ensures MecanicoId in r ==> r[MecanicoId] == MsgMecanico
    ensures Valor in r ==> r[Valor] == MsgValor
  {
    map c | c in Campos && Falha(f, c) :: Mensagem(f, c)
  }

  /** What a valid form is, field by field. */
  predicate FormularioValido(f: Formulario) {
    && !Text.IsBlank(f.cliente)
    && !Text.IsBlank(f.veiculo)
    && !Text.IsBlank(f.descricao)
    && f.mecanicoId != ""
    && f.valor > 0.0
    && |f.telefone| == 11
    && Text.StartsWith(f.telefone, "699")
  }

  /** The form passes (no error keys) exactly when every field is valid. */
  lemma ValidacaoCorreta(f: Formulario)
    ensures |ErrosDoFormulario(f)| == 0 <==> FormularioValido(f)
  {
    var e := ErrosDoFormulario(f);
    if !FormularioValido(f) {
      var k :| k in e;
      assert e.Keys == {k} + (e.Keys - {k});
    }
  }

  /** A wrong length is reported instead of a wrong prefix; a good phone has no error. */
  lemma ErroDeTelefone(f: Formulario)
    ensures |f.telefone| != 11 ==> Telefone in ErrosDoFormulario(f) && ErrosDoFormulario(f)[Telefone] == MsgTelefoneFormato
    ensures |f.telefone| == 11 && !Text.StartsWith(f.telefone, "699") ==>
      Telefone in ErrosDoFormulario(f) && ErrosDoFormulario(f)[Telefone] == MsgTelefonePrefixo
    ensures |f.telefone| == 11 && Text.StartsWith(f.telefone, "699") ==> Telefone !in ErrosDoFormulario(f)
  {
  }

  // ---------------------------------------------------------------------
  // Search and status filter

  datatype FiltroStatus = Todos | Somente(status: Status)

  predicate CorrespondeBusca(s: Servico, busca: string) {
    var b := Text.Lower(busca);
    Text.Includes(Text.Lower(s.cliente), b)
    || Text.Includes(Text.Lower(s.veiculo), b)
    || Text.Includes(Text.Lower(s.descricao), b)
  }

  predicate CorrespondeStatus(s: Servico, filtro: FiltroStatus) {
    filtro.Todos? || s.status == filtro.status
  }

  /** `servicosFiltrados`: the services matching both the search text and the
      status filter, in list order; no search and "todos" shows everything. */
  function ServicosFiltrados(servicos: seq<Servico>, busca: string, filtro: FiltroStatus): (r: seq<Servico>)
    ensures Lists.IsSubsequence(r, servicos)
    ensures forall i :: 0 <= i < |r| ==> CorrespondeBusca(r[i], busca) && CorrespondeStatus(r[i], filtro)
    ensures forall i ::
      (0 <= i < |servicos| && CorrespondeBusca(servicos[i], busca) && CorrespondeStatus(servicos[i], filtro))
      ==> servicos[i] in r && multiset(r)[servicos[i]] == multiset(servicos)[servicos[i]]
    ensures busca == "" && filtro == Todos ==> r == servicos
  {
    var p := (s: Servico) => CorrespondeBusca(s, busca) && CorrespondeStatus(s, filtro);
    if busca == "" && filtro == Todos then
      Lists.FilterKeepsAll(servicos, p);
      Lists.Filter(servicos, p)
    else
      Lists.Filter(servicos, p)
  }

  /** Marks the client of a service as thanked. */
  function MarcarAgradecido(s: Servico): Servico {
    s.(clienteAgradecido := true)
  }

  // ---------------------------------------------------------------------
  // Page state

  class ServicosPage {
    var servicos: seq<Servico>
    var mecanicos: seq<Mecanicos.Mecanico>
    var formData: Formulario
    var errors: map<Campo, string>
    var editando: Option<Servico>
    var dialogOpen: bool

    constructor (servicos: seq<Servico>, mecanicos: seq<Mecanicos.Mecanico>, hoje: string)
      ensures this.servicos == servicos && this.mecanicos == mecanicos
      ensures formData == FormularioVazio(hoje) && errors == map[] && editando == None && !dialogOpen
    {
      this.servicos := servicos;
      this.mecanicos := mecanicos;
      formData := FormularioVazio(hoje);
      errors := map[];
      editando := None;
      dialogOpen := false;
    }

    /** The phone branch of `handleInputChange`. */
    method HandleTelefoneChange(value: string)
      modifies this`formData
      ensures formData == old(formData).(telefone := TelefoneNormalizado(value))
    {
      var tel := NormalizarTelefone(value);
      formData := formData.(telefone := tel);
    }

    /** `handleMecanicoChange`: the id and the name of the first mechanic with it. */
    method HandleMecanicoChange(id: string)
      modifies this`formData
      ensures formData == old(formData).(mecanicoId := id, mecanicoNome := Mecanicos.NomeDoMecanico(mecanicos, id))
    {
      formData := formData.(mecanicoId := id, mecanicoNome := Mecanicos.NomeDoMecanico(mecanicos, id));
    }

    /** `alternarStatus`: every entry with the service's id gets the status that
        follows the given service's status; nothing else changes. */
    method AlternarStatus(servico: Servico)
      modifies this`servicos
      ensures |servicos| == |old(servicos)|
      ensures forall i :: 0 <= i < |servicos| ==>
        servicos[i] == if old(servicos)[i].id == servico.id
                       then old(servicos)[i].(status := ProximoStatus(servico.status))
                       else old(servicos)[i]
    {
      var novo := ProximoStatus(servico.status);
      servicos := Lists.MapWhere(servicos, ServicoId, servico.id, (s: Servico) => s.(status := novo));
    }

    /** `validarFormulario`: records the error object and reports whether it is empty. */
    method ValidarFormulario() returns (ok: bool)
      modifies this`errors
      ensures errors == ErrosDoFormulario(formData)
      ensures ok == FormularioValido(formData)
    {
      errors := ErrosDoFormulario(formData);
      ValidacaoCorreta(formData);
      ok := |errors| == 0;
    }

    /** `salvarServico`. A new service gets the id `novoId` (the clock reading)
        and an un-thanked client; an edit keeps the edited id. */
    method SalvarServico(novoId: string, hoje: string)
      modifies this`servicos, this`errors, this`formData, this`dialogOpen
      ensures !FormularioValido(old(formData)) ==>
        && servicos == old(servicos) && formData == old(formData)
        && dialogOpen == old(dialogOpen) && errors == ErrosDoFormulario(old(formData))
      ensures FormularioValido(old(formData)) && editando.Some? ==>
        && |servicos| == |old(servicos)|
        && forall i :: 0 <= i < |servicos| ==>
             servicos[i] == if old(servicos)[i].id == editando.value.id
                            then ServicoDe(old(formData), editando.value.id)
                            else old(servicos)[i]
      ensures FormularioValido(old(formData)) && editando.None? ==>
        servicos == old(servicos) + [ServicoDe(old(formData), novoId).(clienteAgradecido := false)]
      ensures FormularioValido(old(formData)) ==>
        !dialogOpen && formData == FormularioVazio(hoje) && errors == map[]
    {
      var ok := ValidarFormulario();
      if !ok {
        return;
      }
      match editando {
        case Some(e) =>
          var atualizado := ServicoDe(formData, e.id);
          servicos := Lists.MapWhere(servicos, ServicoId, e.id, (_: Servico) => atualizado);
        case None =>
          servicos := servicos + [ServicoDe(formData, novoId).(clienteAgradecido := false)];
      }
      dialogOpen := false;
      formData := FormularioVazio(hoje);
      errors := map[];
    }

    /** `excluirServico`: once confirmed, every entry with the id goes and the rest keep their order. */
    method ExcluirServico(id: string, confirmado: bool)
      modifies this`servicos
      ensures !confirmado ==> servicos == old(servicos)
      ensures confirmado ==> servicos == Lists.RemoveKey(old(servicos), ServicoId, id)
    {
      if confirmado {
        servicos := Lists.RemoveKey(servicos, ServicoId, id);
      }
    }

    /** `agradecerCliente`: when the phone yields a link, the service is marked
        thanked and the link is opened (returned here); otherwise nothing changes. */
    method AgradecerCliente(servico: Servico, mensagem: string) returns (aberto: Option<string>)
      modifies this`servicos
      ensures aberto == GerarLinkWhatsApp(servico.telefone, mensagem)
      ensures aberto.None? ==> servicos == old(servicos)
      ensures aberto.Some? ==> servicos == Lists.MapWhere(old(servicos), ServicoId, servico.id, MarcarAgradecido)
    {
      aberto := GerarLinkWhatsApp(servico.telefone, mensagem);
      if aberto.Some? {
        servicos := Lists.MapWhere(servicos, ServicoId, servico.id, MarcarAgradecido);
      }
    }

    /** `abrirEdicao`. */
    method AbrirEdicao(servico: Servico)
      modifies this`editando, this`formData, this`dialogOpen
      ensures editando == Some(servico) && formData == FormularioDe(servico) && dialogOpen
    {
      editando := Some(servico);
      formData := FormularioDe(servico);
      dialogOpen := true;
    }

    /** `abrirNovoServico`. */
    method AbrirNovoServico(hoje: string)
      modifies this`editando, this`formData, this`errors, this`dialogOpen
      ensures editando == None && formData == FormularioVazio(hoje) && errors == map[] && dialogOpen
    {
      editando := None;
      formData := FormularioVazio(hoje);
      errors := map[];
      dialogOpen := true;
    }
  }

  /** Editing a service through the form and saving it back keeps its id and the list's length. */
  lemma EditarPreservaIds(servicos: seq<Servico>, f: Formulario, id: string)
    requires Lists.DistinctKeys(servicos, ServicoId)
    ensures Lists.DistinctKeys(Lists.MapWhere(servicos, ServicoId, id, (_: Servico) => ServicoDe(f, id)), ServicoId)
  {
    var r := Lists.MapWhere(servicos, ServicoId, id, (_: Servico) => ServicoDe(f, id));
    assert forall i :: 0 <= i < |r| ==> ServicoId(r[i]) == ServicoId(servicos[i]);
  }
}
