/**
 * ChavePixResponseMapper: the response bodies built from a record. Each builder
 * reads the record's fields; the model hands it the record's state as a row.
 */
module ChavePixResponseMapper {
  import opened Wrappers
  import opened Domain
  import opened TipoContaEnum
  import opened ChavePixEntityModel

  datatype CadastrarChavePixResponse = CadastrarChavePixResponse(id: Uuid)

  datatype AlterarChavePixResponse = AlterarChavePixResponse(
    id: Uuid,
    tipoChave: TipoChave,
    valorChave: string,
    tipoConta: TipoConta,
    numeroAgencia: Option<Int32>,
    numeroConta: Option<Int32>,
    nomeCorrentista: Option<string>,
    sobrenomeCorrentista: Option<string>,
    dataInclusao: Timestamp)

  datatype ConsultarChavePixResponse = ConsultarChavePixResponse(
    id: Uuid,
    tipoChave: TipoChave,
    valorChave: string,
    tipoConta: TipoConta,
    numeroAgencia: Option<Int32>,
    numeroConta: Option<Int32>,
    nomeCorrentista: Option<string>,
    sobrenomeCorrentista: string,
    dataInclusao: Timestamp,
    dataInativacao: Option<Timestamp>)

  /** toCadastrarResponse: only the record's id. */
  function ToCadastrarResponse(e: ChavePixEntity): (r: CadastrarChavePixResponse)
    ensures r.id == e.id
  {
    CadastrarChavePixResponse(e.id)
  }

  /** toAlterarResponse: every field except the owner kind and the inactivation instant. */
  function ToAlterarResponse(e: ChavePixEntity): AlterarChavePixResponse
  {
    AlterarChavePixResponse(
      e.id, e.tipoChave, e.valorChave, e.tipoConta, e.numeroAgencia, e.numeroConta,
      e.nomeCorrentista, e.sobrenomeCorrentista, e.dataHoraInclusao)
  }

  /** toConsultarResponse: every field except the owner kind; a missing last name becomes "". */
  function ToConsultarResponse(e: ChavePixEntity): ConsultarChavePixResponse
  {
    ConsultarChavePixResponse(
      e.id, e.tipoChave, e.valorChave, e.tipoConta, e.numeroAgencia, e.numeroConta,
      e.nomeCorrentista,
      if e.sobrenomeCorrentista.None? then "" else e.sobrenomeCorrentista.value,
      e.dataHoraInclusao, e.dataHoraInativacao)
  }

  /** The row a consultation response describes, given the owner kind it leaves out. */
  function FromConsultarResponse(r: ConsultarChavePixResponse, tipoPessoa: TipoPessoa): ChavePixEntity
  {
    ChavePixEntity(
      r.id, r.tipoChave, r.valorChave, r.tipoConta, tipoPessoa, r.numeroAgencia, r.numeroConta,
      r.nomeCorrentista, Some(r.sobrenomeCorrentista), r.dataInclusao, r.dataInativacao)
  }

  /**
   * The consultation response loses only the owner kind and the difference
   * between a missing and an empty last name: every other row is recovered.
   */
  lemma ConsultarResponseRoundTrip(e: ChavePixEntity)
    ensures e.sobrenomeCorrentista.Some? ==>
      FromConsultarResponse(ToConsultarResponse(e), e.tipoPessoa) == e
    ensures e.sobrenomeCorrentista.None? ==>
      FromConsultarResponse(ToConsultarResponse(e), e.tipoPessoa)
        == e.(sobrenomeCorrentista := Some(""))
  {
  }

  /** Rows that differ only in a missing versus an empty last name give the same answer. */
  lemma ConsultarResponseMissingIsEmpty(e: ChavePixEntity)
    ensures ToConsultarResponse(e.(sobrenomeCorrentista := None))
         == ToConsultarResponse(e.(sobrenomeCorrentista := Some("")))
  {
  }

  /**
   * Two rows with the same alteration response agree on everything but the
   * owner kind and the inactivation instant, which that response omits.
   */
  lemma AlterarResponseDetermines(e: ChavePixEntity, d: ChavePixEntity)
    ensures ToAlterarResponse(e) == ToAlterarResponse(d) <==>
      e.(tipoPessoa := d.tipoPessoa, dataHoraInativacao := d.dataHoraInativacao) == d
  {
  }

  /** toConsultarResponseList: one response per record, in the same order. */
  function ToConsultarResponseList(es: seq<ChavePixEntity>): (r: seq<ConsultarChavePixResponse>)
    ensures |r| == |es|
    ensures forall i :: 0 <= i < |es| ==> r[i] == ToConsultarResponse(es[i])
  {
    if es == [] then []
    else [ToConsultarResponse(es[0])] + ToConsultarResponseList(es[1..])
  }
}
