/** The value types of a PIX key record: identifiers, instants and the enumerations. */
module Domain {

  /** java.lang.Integer: a 32-bit two's-complement number. */
  newtype Int32 = x: int | -0x8000_0000 <= x < 0x8000_0000

  /** A java.util.UUID, generated outside the core and handed in. */
  type Uuid = nat

  /** A java.time.LocalDateTime, read from the clock outside the core and handed in. */
  type Timestamp = int

  /** TipoChave: the five kinds of PIX key. */
  datatype TipoChave = CPF | CNPJ | EMAIL | CELULAR | ALEATORIA

  /** TipoPessoa: individual or business owner; it sets the account's key quota. */
  datatype TipoPessoa = PESSOA_FISICA | PESSOA_JURIDICA
}
