/**
 * The failures the core raises. Each Java exception class becomes a constructor;
 * the ones that carry a code from MessageErrorCodeConstants carry a `Code`.
 */
module Errors {

  /** The codes of MessageErrorCodeConstants that the core raises. */
  datatype Code =
    | CHAVE_INATIVA
    | LIMITE_CHAVE_EXCEDIDO
    | CHAVE_EXISTENTE
    | FILTRO_INVALIDO
    | CHAVE_NAO_ENCONTRADA
    | EMAIL_INVALIDO
    | CPF_INVALIDO
    | CNPJ_INVALIDO
    | CELULAR_INVALIDO
    | ALEATORIA_INVALIDA
    | CONTA_INVALIDA
    | NOME_INVALIDO
    | SOBRENOME_INVALIDO
    | AGENCIA_INVALIDA
    | TIPO_CHAVE_NAO_CORRESPONDE
    | FILTRO_ID_COMBINADO

  /** The text of each code: HTTP status, a dot, a three-digit number. */
  function CodeValue(c: Code): string
  {
    match c
    case CHAVE_INATIVA => "400.018"
    case LIMITE_CHAVE_EXCEDIDO => "400.019"
    case CHAVE_EXISTENTE => "400.020"
    case FILTRO_INVALIDO => "400.022"
    case CHAVE_NAO_ENCONTRADA => "404.001"
    case EMAIL_INVALIDO => "422.001"
    case CPF_INVALIDO => "422.002"
    case CNPJ_INVALIDO => "422.003"
    case CELULAR_INVALIDO => "422.004"
    case ALEATORIA_INVALIDA => "422.005"
    case CONTA_INVALIDA => "422.006"
    case NOME_INVALIDO => "422.007"
    case SOBRENOME_INVALIDO => "422.008"
    case AGENCIA_INVALIDA => "422.009"
    case TIPO_CHAVE_NAO_CORRESPONDE => "422.010"
    case FILTRO_ID_COMBINADO => "422.011"
  }

  /** Which rule an IllegalArgumentException of the domain reports. */
  datatype Reason =
    | NomeCorrentista
    | SobrenomeCorrentista
    | NumeroAgencia
    | NumeroConta
    | TipoContaExcedeTamanho
    | TipoContaForaDoConjunto
    | TipoContaNulo
    | TipoContaDesconhecido
    | TipoChaveSemEstrategia

  /** Which rule an IllegalStateException reports. */
  datatype StateReason =
    | ChaveInativa        // atualizarDadosPermitidos on an inactive record
    | TipoChaveDuplicado  // Collectors.toMap meeting the same key twice

  /** The message of a ChavePixException raised by the registration service. */
  datatype Message =
    | ChaveJaCadastrada
    | LimiteExcedido

  datatype Error =
    | BadRequest(code: Code)            // BadRequestException, HTTP 400
    | NotFound(code: Code)              // NotFoundException, HTTP 404
    | Unprocessable(code: Code)         // UnprocessableEntityException, HTTP 422
    | IllegalArgument(reason: Reason)   // java.lang.IllegalArgumentException
    | IllegalState(state: StateReason)  // java.lang.IllegalStateException
    | ChavePixFailure(message: Message) // ChavePixException
    | UniqueViolation                   // the store's unique constraint on valor_chave
    | ColumnViolation                   // the store's not-null and length constraints
    | NullPointer                       // java.lang.NullPointerException

  /** A void Java call: it returns normally or throws. */
  datatype Outcome = Pass | Fail(error: Error)

  /** A Java call that returns a value or throws. */
  datatype Result<+T> = Ok(value: T) | Err(error: Error)
}
