# chavepix core in Dafny

A model of the PIX-key registry of `chavepix`, with proofs about it. A PIX key binds an alias to a bank account and its owner. The alias is a CPF or CNPJ document number, an e-mail address, a mobile number or a random token. The model covers:

- the five key-format validators: the CPF and CNPJ modulo-11 check digits, e-mail, mobile number and random key. The strategy classes chosen through `ValidadorChaveFactory` are modelled. `ChavePixValidator` holds inline copies of all five. Its CPF and CNPJ copies are modelled separately and proved to agree with the strategies. Its e-mail, mobile and random-key copies repeat the strategies' checks exactly, so the model reuses the strategy functions for them.
- the account-type enumeration `TipoConta` and its normalising `fromString`.
- the field rules for the owner's names and for the branch and account numbers.
- the per-account key quota.
- the `ChavePix` record, with its validating constructor and its one in-place update.
- the mappers between the record, the stored row and the response bodies.
- the three use cases (register, alter, query), written over an in-memory store of rows.
- the controller's rule for choosing a query from its filters.

Records, the store and the services are Dafny classes whose methods change fields in place. The validators, field rules, mappers and the filter rule are functions. The CPF and CNPJ checks keep their `for` loops. Each loop is proved to compute the weighted sum that the specification function defines.

Java's semantics are written out where they matter:

- `\d` is an ASCII digit.
- `Integer.toString` counts the minus sign, so the branch rule admits exactly -999..9999 and the account rule exactly -9999999..99999999.
- `String.trim` strips characters up to U+0020.
- `Character.forDigit` yields `'\0'` outside 0..9.
- `Collectors.toMap` throws on a duplicate key.
- Exceptions are values: `Outcome` (`Pass | Fail(error)`) for void calls and `Result` for calls that return a value. The `Error` datatype carries the codes of `MessageErrorCodeConstants`.
- UUIDs and clock readings are parameters.
- A Java reference that may be null is an `Option`: the service arguments, the record's names and numbers, and the owner kind. `switch` on a null key type is `NullPointer`, and a null value in a not-null column is refused on save (`ColumnViolation`).

The code makes these choices, and the model follows them:

- A random key must be exactly 36 alphanumerics. A shorter one is not accepted.
- `atualizarDadosPermitidos` is not atomic. It assigns the five fields first and validates afterwards, so a failed validation leaves the new values in the record.
- The quota counts every key of the branch and account pair, inactive ones included.
- `ChavePix.validar` calls `tipoChave.validar(valorChave)`, which `TipoChave` does not declare. It is modelled as dispatch to the per-type strategy.
- `AlterarChavePixService` calls `atualizarDadosPermitidos` with six arguments. The method takes five, so the key value in the request is checked for format but never stored.
- Registration (`CadastrarChavePixService.cadastrarChave`) builds its record with the all-arguments constructor. Neither `validar` nor `validarCampos` runs (see Findings).
- A uniqueness rejection from the store surfaces as its own error (`UniqueViolation`). It is not mapped to the "already exists" error.

## Model

| member | source | states |
|---|---|---|
| CpfValidation.Validar | src/main/java/br/com/chavepix/domain/validation/CpfValidator.java:20-47 | the two loops accumulate exactly the weighted sums with weights 10..2 over digits 0-8 and 11..2 over digits 0-9; the outcome is Pass exactly for 11 ASCII digits, not all equal, whose characters 9 and 10 are the two check digits, otherwise CPF_INVALIDO |
| CpfValidation.CheckDigitsAreDigits | src/main/java/br/com/chavepix/domain/validation/CpfValidator.java:29-41 | both computed check digits lie in 0..9, so `Character.forDigit` always yields a digit character |
| CpfValidation.AcceptedShape | src/main/java/br/com/chavepix/domain/validation/CpfValidator.java:22-27 | an accepted value is present, 11 ASCII digits long and not one digit repeated |
| CpfValidation.Examples | src/main/java/br/com/chavepix/domain/validation/CpfValidator.java:43-46 | "11144477735" is accepted and "11144477700" refused with CPF_INVALIDO |
| CpfValidation.RepeatedPassesCheckDigits | src/main/java/br/com/chavepix/domain/validation/CpfValidator.java:25-27 | eleven copies of any digit carry matching check digits, and only the repetition rule refuses them |
| CpfValidation.SequentialDigitsRefused | src/main/java/br/com/chavepix/domain/validation/CpfValidator.java:36-46 | "12345678901" is refused: its second check digit computes to 9 |
| CnpjValidation.Validar | src/main/java/br/com/chavepix/domain/validation/CnpjValidator.java:20-44 | the two loops accumulate the sums over the fixed weight vectors; Pass exactly for 14 ASCII digits, not all equal, whose characters 12 and 13 are the check digits (remainder below 2 gives 0, else 11 minus it), otherwise CNPJ_INVALIDO |
| CnpjValidation.CheckDigit | src/main/java/br/com/chavepix/domain/validation/CnpjValidator.java:34-38 | every CNPJ check digit lies in 0..9 |
| CnpjValidation.AcceptedShape | src/main/java/br/com/chavepix/domain/validation/CnpjValidator.java:22-27 | an accepted value is present, 14 ASCII digits long and not one digit repeated |
| CnpjValidation.Example | src/main/java/br/com/chavepix/domain/validation/CnpjValidator.java:40-43 | "11222333000181" is accepted |
| CnpjValidation.ZerosPassCheckDigits | src/main/java/br/com/chavepix/domain/validation/CnpjValidator.java:25-27 | fourteen zeros carry matching check digits yet are refused by the repetition rule |
| EmailValidation.Validar | src/main/java/br/com/chavepix/domain/validation/EmailValidator.java:20-25 | Pass exactly when the value is present, at most 77 characters long and contains '@'; otherwise EMAIL_INVALIDO |
| EmailValidation.Examples | src/main/java/br/com/chavepix/domain/validation/EmailValidator.java:22-24 | a short address with '@' passes; one without '@' and any 78-character value fail |
| CelularValidation.Validar | src/main/java/br/com/chavepix/domain/validation/CelularValidator.java:20-25 | Pass exactly when the value is '+' followed only by ASCII digits and is 13 or 14 characters long; otherwise CELULAR_INVALIDO |
| CelularValidation.PatternMeaning | src/main/java/br/com/chavepix/domain/validation/CelularValidator.java:22 | the regex `^\+\d{1,2}\d{2}\d{9}$` matches exactly '+' followed by 12 or 13 digits |
| CelularValidation.Examples | src/main/java/br/com/chavepix/domain/validation/CelularValidator.java:22-24 | "+5511987654321" passes; "5511987654321" without '+' fails |
| AleatoriaValidation.Validar | src/main/java/br/com/chavepix/domain/validation/AleatoriaValidator.java:20-25 | Pass exactly for 36 characters from [a-zA-Z0-9]; any other length or character fails with ALEATORIA_INVALIDA |
| AleatoriaValidation.HyphenatedUuidRefused | src/main/java/br/com/chavepix/domain/validation/AleatoriaValidator.java:22 | the hyphenated UUID text "123e4567-e89b-12d3-a456-426614174000" is refused |
| AleatoriaValidation.BareUuidRefused | src/main/java/br/com/chavepix/domain/validation/AleatoriaValidator.java:22 | a UUID's 32 hex digits without hyphens are refused too |
| ValidadorChave.FormatRefusesNull | src/main/java/br/com/chavepix/domain/validation/CpfValidator.java:22-24 | every key type's format rule refuses a null value with that type's own code |
| ValidadorChave.StrategyFor | src/main/java/br/com/chavepix/domain/validation/CpfValidator.java:50-52 | the strategy chosen for a key type declares that type through getTipoChave |
| ValidadorChave.StrategyForUnique | src/main/java/br/com/chavepix/domain/validation/ValidadorChaveFactory.java:16-19 | each strategy is the only one declaring its key type |
| ValidadorChave.Validar | src/main/java/br/com/chavepix/domain/validation/ValidadorChaveStrategy.java:7 | validating through a strategy yields that strategy's specified outcome |
| ValidadorChave.ToMap | src/main/java/br/com/chavepix/domain/validation/ValidadorChaveFactory.java:16-19 | the list-to-map collection succeeds exactly when no two strategies share a type; the keys are the strategies' types and each strategy sits under its own type; a duplicate is IllegalStateException |
| ValidadorChave.FromList | src/main/java/br/com/chavepix/domain/validation/ValidadorChaveFactory.java:16-19 | the factory is built exactly for distinct types, and then getStrategy of each strategy's type returns that strategy |
| ValidadorChave.GetStrategy | src/main/java/br/com/chavepix/domain/validation/ValidadorChaveFactory.java:21-26 | the lookup succeeds exactly for a registered type, returns what is registered, and otherwise fails with IllegalArgumentException |
| ValidadorChave.FullRegistry | src/main/java/br/com/chavepix/domain/validation/ValidadorChaveFactory.java:14-26 | the factory over the five strategies is built, answers each type with its own strategy, and decides each value as the format rule of that type |
| ValidadorChave.DuplicateRegistration | src/main/java/br/com/chavepix/domain/validation/ValidadorChaveFactory.java:17-18 | registering a strategy a second time makes construction fail |
| TipoContaEnum.Validar | src/main/java/br/com/chavepix/domain/model/TipoConta.java:13-22 | validar never fails for either constant |
| TipoContaEnum.ValueOf | src/main/java/br/com/chavepix/domain/model/TipoConta.java:30-33 | valueOf succeeds exactly for a constant's name and returns the constant of that name; otherwise IllegalArgumentException |
| TipoContaEnum.FromString | src/main/java/br/com/chavepix/domain/model/TipoConta.java:24-34 | null fails; otherwise the result is the constant whose name equals the trimmed, upper-cased text, and no such constant is IllegalArgumentException |
| TipoContaEnum.FromStringName | src/main/java/br/com/chavepix/domain/model/TipoConta.java:30 | fromString of a constant's name returns that constant |
| TipoContaEnum.FromStringPadded | src/main/java/br/com/chavepix/domain/model/TipoConta.java:30 | surrounding blanks and control characters do not change the result |
| TipoContaEnum.FromStringExample | src/main/java/br/com/chavepix/domain/model/TipoConta.java:30 | " poupanca " yields POUPANCA |
| TipoContaEnum.FromStringUnknown | src/main/java/br/com/chavepix/domain/model/TipoConta.java:31-33 | text that is no constant's name after normalisation fails with IllegalArgumentException |
| FieldRules.AgenciaRange | src/main/java/br/com/chavepix/application/validator/ChavePixValidator.java:68-71 | the branch rule (decimal text of at most 4 characters) admits exactly -999..9999 |
| FieldRules.ContaRange | src/main/java/br/com/chavepix/application/validator/ChavePixValidator.java:73-76 | the account rule (decimal text of at most 8 characters) admits exactly -9999999..99999999 |
| FieldRules.Examples | src/main/java/br/com/chavepix/application/validator/ChavePixValidator.java:58-76 | 1234 and 567890 pass, 12345 and 123456789 fail, an empty first name and a missing last name pass |
| ChavePixModel.ValidarSpecPasses | src/main/java/br/com/chavepix/domain/model/ChavePix.java:69-88 | validar passes exactly when the key value fits its type's format and first name, last name, branch and account all satisfy their rules |
| ChavePixModel.ChavePix.Validar | src/main/java/br/com/chavepix/domain/model/ChavePix.java:69-88 | the record's validar reports the first failing check, in the order format, account type, first name, last name, branch, account |
| ChavePixModel.ChavePix.constructor | src/main/java/br/com/chavepix/domain/model/ChavePix.java:12 | the all-arguments constructor stores all eleven arguments unchanged, validating nothing |
| ChavePixModel.ChavePix.AtualizarDadosPermitidos | src/main/java/br/com/chavepix/domain/model/ChavePix.java:51-67 | an inactive record fails with IllegalStateException and is unchanged; otherwise the five fields take the new values whatever validar then says, the outcome is validar's; id, key type, key value, owner kind and both instants never change |
| ChavePixModel.Create | src/main/java/br/com/chavepix/domain/model/ChavePix.java:27-49 | the validating constructor succeeds exactly when validar passes, failing with validar's error; the new record holds the arguments, the given id and instant, and is active |
| ChavePixMapper.ToEntityInjective | src/main/java/br/com/chavepix/application/mapper/ChavePixMapper.java:8-22 | toEntity copies all eleven fields: two records have the same row exactly when they agree field by field, and then agree on being inactive |
| ChavePixMapper.ToDomain | src/main/java/br/com/chavepix/application/mapper/ChavePixMapper.java:24-38 | toDomain builds a new record for any row, valid or not, and toEntity of it is the row again |
| ChavePixMapper.RoundTrip | src/main/java/br/com/chavepix/application/mapper/ChavePixMapper.java:8-38 | toDomain(toEntity(c)) is a new record field-wise equal to c, inactive exactly when c is |
| ChavePixResponseMapper.ToCadastrarResponse | src/main/java/br/com/chavepix/application/mapper/ChavePixResponseMapper.java:27-31 | the registration response carries the record's id |
| ChavePixResponseMapper.ConsultarResponseRoundTrip | src/main/java/br/com/chavepix/application/mapper/ChavePixResponseMapper.java:33-48 | the consultation response gives back every field but the owner kind, with a missing last name turned into "" and a present one kept |
| ChavePixResponseMapper.ConsultarResponseMissingIsEmpty | src/main/java/br/com/chavepix/application/mapper/ChavePixResponseMapper.java:42-44 | a missing and an empty last name give the same consultation response |
| ChavePixResponseMapper.AlterarResponseDetermines | src/main/java/br/com/chavepix/application/mapper/ChavePixResponseMapper.java:13-25 | two rows have the same alteration response exactly when they differ at most in owner kind and inactivation instant, which it omits |
| ChavePixResponseMapper.ToConsultarResponseList | src/main/java/br/com/chavepix/application/mapper/ChavePixResponseMapper.java:50-54 | the list has one response per record, in the same order |
| ChavePixRepositoryModel.Filter | src/main/java/br/com/chavepix/adapters/out/persistence/ChavePixJpaRepository.java:10-14 | a derived query answers exactly the stored rows that satisfy it, never more than there are |
| ChavePixRepositoryModel.FilterAppend | src/main/java/br/com/chavepix/adapters/out/persistence/ChavePixJpaRepository.java:12 | a row added after the others is answered last, exactly when it satisfies the query |
| ChavePixRepositoryModel.FilterDistinctCount | src/main/java/br/com/chavepix/adapters/out/persistence/ChavePixJpaRepository.java:12 | over a list without repeated rows, a query answers exactly as many rows as the set of rows that meet it |
| ChavePixRepositoryModel.Repositorio.Entries | src/main/java/br/com/chavepix/adapters/out/persistence/ChavePixRepositoryImpl.java:26-31 | the stored rows listed in the order saved are exactly the rows of the store |
| ChavePixRepositoryModel.Repositorio.ChaveJaExiste | src/main/java/br/com/chavepix/adapters/out/persistence/ChavePixRepositoryImpl.java:21-23 | false for a null value; otherwise true exactly when some stored row holds the key value |
| ChavePixRepositoryModel.Repositorio.BuscarPorConta | src/main/java/br/com/chavepix/adapters/out/persistence/ChavePixRepositoryImpl.java:26-31 | exactly the stored rows of the branch and account pair, active or not, each once: the list is as long as the set of such rows |
| ChavePixRepositoryModel.Repositorio.BuscarPorNome | src/main/java/br/com/chavepix/adapters/out/persistence/ChavePixRepositoryImpl.java:34-39 | exactly the stored rows with that first name |
| ChavePixRepositoryModel.Repositorio.BuscarPorId | src/main/java/br/com/chavepix/adapters/out/persistence/ChavePixRepositoryImpl.java:42-45 | a new record equal to the row under the id, or nothing exactly when the id is unknown |
| ChavePixRepositoryModel.Repositorio.Salvar | src/main/java/br/com/chavepix/adapters/out/persistence/ChavePixRepositoryImpl.java:48-51 | the store keeps its invariants (distinct ids, unique key values, rows within the column constraints); a row breaking a column constraint or duplicating another row's key value is refused and nothing changes; otherwise the row under the record's id is replaced, or added last when the id is new |
| ChavePixValidatorModel.ChavePixValidator.ValidarChaveExistente | src/main/java/br/com/chavepix/application/validator/ChavePixValidator.java:24-30 | fails, always with CHAVE_EXISTENTE, exactly when the value is not null and some stored row holds it |
| ChavePixValidatorModel.ChavePixValidator.ValidarLimitePorConta | src/main/java/br/com/chavepix/application/validator/ChavePixValidator.java:32-41 | fails with LIMITE_CHAVE_EXCEDIDO exactly when the number of distinct stored rows of the branch and account pair, inactive ones included, has reached the owner kind's limit: 5 for an individual, 20 for a business or a null owner kind |
| ChavePixValidatorModel.CamposAcceptsOnlyPresent | src/main/java/br/com/chavepix/application/validator/ChavePixValidator.java:55-56 | validarCampos with a null key value fails with the key type's format code; with a well-formed value and a null account type it fails with CONTA_INVALIDA; so it passes only when both are present |
| ChavePixValidatorModel.QuotaBoundary | src/main/java/br/com/chavepix/application/validator/ChavePixValidator.java:32-41 | for an individual, validarLimitePorConta passes exactly when the account holds at most 4 keys; for any other owner kind, null included, exactly when it holds at most 19 |
| ChavePixValidatorModel.InactiveKeysCount | src/main/java/br/com/chavepix/application/validator/ChavePixValidator.java:34-37 | an inactive stored key is among the rows counted against its account's quota |
| ChavePixValidatorModel.ChavePixValidator.ValidarCampos | src/main/java/br/com/chavepix/application/validator/ChavePixValidator.java:43-77 | validarCampos decides as its specification: the first failing check in the fixed order, with its code |
| ChavePixValidatorModel.CamposFirstFailure | src/main/java/br/com/chavepix/application/validator/ChavePixValidator.java:55-76 | every failure is an UnprocessableEntityException; Pass exactly when every rule holds; each field code exactly when its rule is the first broken; CONTA_INVALIDA for a missing account type or a bad account number |
| ChavePixValidatorModel.CamposAgreesWithRecord | src/main/java/br/com/chavepix/application/validator/ChavePixValidator.java:55-76 | validarCampos accepts exactly the values the record's own validar accepts |
| ChavePixValidatorModel.ChavePixValidator.ValidarTipoChave | src/main/java/br/com/chavepix/application/validator/ChavePixValidator.java:79-92 | dispatches on the key type; the inline CPF and CNPJ checks decide exactly as the strategies do, with the same codes, and the e-mail, mobile and random-key cases are the strategy rules themselves |
| ChavePixValidatorModel.ChavePixValidator.ValidarCpf | src/main/java/br/com/chavepix/application/validator/ChavePixValidator.java:94-121 | the inline CPF loops decide exactly as CpfValidator |
| ChavePixValidatorModel.ChavePixValidator.ValidarCnpj | src/main/java/br/com/chavepix/application/validator/ChavePixValidator.java:123-147 | the inline CNPJ loops decide exactly as CnpjValidator |
| ChavePixValidatorModel.ChavePixValidator.ValidarTipoConta | src/main/java/br/com/chavepix/application/validator/ChavePixValidator.java:170-175 | passes exactly for a present account type, otherwise CONTA_INVALIDA |
| ChavePixValidatorModel.RegistroValidoFitsColumns | src/main/java/br/com/chavepix/adapters/out/persistence/ChavePixEntity.java:40-50 | a row that passes the record's rules fits every not-null and length constraint of the table |
| CadastrarChavePixServiceModel.CadastrarChavePixService.CadastrarChave | src/main/java/br/com/chavepix/application/service/CadastrarChavePixService.java:27-56 | a duplicate value fails first and a full quota second, both leaving the store unchanged; a null key type, value, account type or owner kind, or a field too long for its column, is refused on save with nothing stored; otherwise the unvalidated record is saved, exactly one row is added under the new id with the inputs, creation instant and no inactivation, it is listed last for its account and its value now exists, and the response carries its id |
| CadastrarChavePixServiceModel.CadastrarChavePixService.Cadastrar | src/main/java/br/com/chavepix/application/service/CadastrarChavePixService.java:58-69 | cadastrar has exactly the effect of cadastrarChave on the request's fields |
| CadastrarChavePixServiceModel.UnvalidatedRegistration | src/main/java/br/com/chavepix/application/service/CadastrarChavePixService.java:39-53 | on an empty store the registration of CPF "12345678901" succeeds and stores a row the record's own rules reject |
| CadastrarChavePixServiceModel.CadastrarChavePixService.CadastrarChaveValidado | src/test/java/br/com/chavepix/application/service/CadastrarChavePixServiceTest.java:438-457 | duplicate check, quota check, then validarCampos before the save (a null key type is NullPointer, a null value its format error, a null account type CONTA_INVALIDA; a null owner kind is refused on save); only rows passing the record's rules are stored, so a store of valid rows stays valid |
| CadastrarChavePixServiceModel.ValidatedRegistrationRefuses | src/test/java/br/com/chavepix/application/service/CadastrarChavePixServiceTest.java:438-457 | with validation, the same CPF registration is refused with CPF_INVALIDO |
| AlterarChavePixServiceModel.AlterarSpec | src/main/java/br/com/chavepix/application/service/AlterarChavePixService.java:38-62 | an alteration succeeds only for a stored, active record and a request whose key type equals the stored one and whose key value and account type are not null |
| AlterarChavePixServiceModel.AlterarChavePixService.AlterarChave | src/main/java/br/com/chavepix/application/service/AlterarChavePixService.java:33-67 | the answer is, in order: not found, inactive, type mismatch (a null key type included), the request's field error, the updated record's validation error, else the response; on success only the row under the id changes, to the altered record; on failure nothing is saved; a store of valid rows stays valid |
| AlterarChavePixServiceModel.AlterarKeepsIdentity | src/main/java/br/com/chavepix/application/service/AlterarChavePixService.java:62-66 | a successful alteration keeps id, key type, key value, owner kind and creation instant, leaves the record active and answers with the altered record |
| AlterarChavePixServiceModel.RequestValueOnlyChecked | src/main/java/br/com/chavepix/application/service/AlterarChavePixService.java:52-62 | the request's key value only has to be well formed: replacing it by another well-formed value changes nothing |
| AlterarChavePixServiceModel.StoredFormatBlocksAlteration | src/main/java/br/com/chavepix/application/service/AlterarChavePixService.java:62 | a stored key value that breaks its format rule makes every otherwise acceptable alteration fail with that format error |
| AlterarChavePixServiceModel.ValidStoredRowAccepts | src/main/java/br/com/chavepix/application/service/AlterarChavePixService.java:52-63 | for an active, valid row of the requested type, alteration succeeds exactly when validarCampos passes, and the altered row is valid |
| AlterarChavePixServiceModel.InactiveRefusedFirst | src/main/java/br/com/chavepix/application/service/AlterarChavePixService.java:43-46 | an inactive record is refused with CHAVE_INATIVA whatever the request |
| AlterarChavePixServiceModel.NullArgumentsRefused | src/main/java/br/com/chavepix/application/service/AlterarChavePixService.java:48-60 | on an active record a null key type fails as a type mismatch, a null key value fails with the stored type's format code, and a null account type after a well-formed value fails with CONTA_INVALIDA |
| AlterarChavePixServiceModel.AlterarPreservesValidity | src/main/java/br/com/chavepix/application/service/AlterarChavePixService.java:62-63 | a successful alteration of a store whose rows are all valid leaves them all valid |
| ConsultarChavePixServiceModel.ConsultarChavePixService.ConsultarPorId | src/main/java/br/com/chavepix/application/service/ConsultarChavePixService.java:29-36 | the response of the row under the id, or CHAVE_NAO_ENCONTRADA exactly when there is none |
| ConsultarChavePixServiceModel.ConsultarChavePixService.ConsultarPorConta | src/main/java/br/com/chavepix/application/service/ConsultarChavePixService.java:39-49 | CHAVE_NAO_ENCONTRADA exactly when no stored row has the account; otherwise one response per row of the account, in order |
| ConsultarChavePixServiceModel.ConsultarChavePixService.ConsultarPorNome | src/main/java/br/com/chavepix/application/service/ConsultarChavePixService.java:51-58 | one response per row with the name, in order; no match is an empty list, not an error |
| ChavePixControllerModel.SelecionarConsulta | src/main/java/br/com/chavepix/adapters/in/rest/ChavePixController.java:76-97 | FILTRO_ID_COMBINADO exactly when an id comes with another filter; by id exactly for an id alone; by account exactly when both branch and account are given without id, ahead of a name; by name exactly for a name without id or full account; FILTRO_INVALIDO otherwise; each choice carries the given values |
| ChavePixControllerModel.ChavePixController.ConsultarChavePix | src/main/java/br/com/chavepix/adapters/in/rest/ChavePixController.java:69-102 | the answer is the filter error, or the selected consultation's answer |

## Left out

- Logging, `MessageConfig` message texts and HTTP status rendering (`ControllerAdvice`): errors are values carrying their codes.
- Spring wiring, Bean Validation annotations on the request bodies (`@NotNull`, `@NotBlank`) and JSON serialisation.
- JPA itself: the store is an in-memory map. The unique, not-null and length constraints of `ChavePixEntity` are checked on save. A JPA query without ORDER BY has no defined order; the model answers in the order rows were first saved.
- The repository's list queries return the stored rows as values, not fresh `ChavePix` objects. The consultation services only read them, so nothing they answer depends on this.
- The response builders read a record's fields; the model passes them the record's state as its row value.
- Null key type, key value or account type inside a stored record: the services refuse them (a null key type at the type check or the `switch`, the others in `validarCampos` or on save), so the record and row types hold them as plain values.
- `String.toUpperCase` is modelled for ASCII letters only, which is exact for the names CORRENTE and POUPANCA. `String.length` counts UTF-16 units; the model counts characters.
- The `default` branch of `validarTipoChave` (TIPO_CHAVE_INVALIDO): the enumeration has exactly five values, so the branch cannot be reached.
- The controller's `catch (ChavePixException)`: the consultation services never raise that exception. The registration and alteration endpoints only pass the request through, so they are not modelled.
- Concurrency: the check-then-act race between the duplicate and quota checks and the save.
- UUID generation and the clock: the new id and the current instant are parameters. Registration requires the id to be new to the store.

## Findings

| source | as written | input that shows it | evidently intended | confidence | as-written member | corrected member |
|---|---|---|---|---|---|---|
| src/main/java/br/com/chavepix/application/service/CadastrarChavePixService.java:39-53 | the new record is built with the all-arguments constructor and saved without `validarCampos` or the record's own `validar` | an individual's CPF key "12345678901" with a valid account on an empty store is registered, although its second check digit should be 9 | `validarCampos` runs between the quota check and the save, as CadastrarChavePixServiceTest.java:438-457 expects, so only valid keys are stored | not executed | CadastrarChavePixServiceModel.UnvalidatedRegistration | CadastrarChavePixServiceModel.CadastrarChavePixService.CadastrarChaveValidado |
