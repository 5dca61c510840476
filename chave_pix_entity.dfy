/** ChavePixEntity: the stored row of a PIX key and the column constraints declared on it. */
module ChavePixEntityModel {
  import opened Wrappers
  import opened Domain
  import opened TipoContaEnum

  /** One row of the chave_pix table, field for field the record it stores. */
  datatype ChavePixEntity = ChavePixEntity(
    id: Uuid,
    tipoChave: TipoChave,
    valorChave: string,
    tipoConta: TipoConta,
    tipoPessoa: TipoPessoa,
    numeroAgencia: Option<Int32>,
    numeroConta: Option<Int32>,
    nomeCorrentista: Option<string>,
    sobrenomeCorrentista: Option<string>,
    dataHoraInclusao: Timestamp,
    dataHoraInativacao: Option<Timestamp>)

  /**
   * The not-null and length constraints of the columns: branch, account and
   * first name are required, the first name is at most 30 characters long and
   * the last name at most 45.
   */
  predicate ColumnsFit(e: ChavePixEntity)
  {
    && e.numeroAgencia.Some?
    && e.numeroConta.Some?
    && e.nomeCorrentista.Some? && |e.nomeCorrentista.value| <= 30
    && (e.sobrenomeCorrentista.None? || |e.sobrenomeCorrentista.value| <= 45)
  }
}
