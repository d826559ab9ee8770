# Bank account ledger, modelled in Dafny

This project models the core of a small retail-banking program written in Python. The core is four things:

- the account ledger: balance (`saldo`) and history (`historico`);
- the two transactions, a withdrawal (`Saque`) and a deposit (`Deposito`), which move the balance;
- a transaction is recorded in the account's history only when the account operation succeeds;
- a checking account (`ContaCorrente`) adds a ceiling per withdrawal (`limite`, 500 by default) and a ceiling on the number of withdrawals (`limite_saques`, 3 by default). The count is taken over the account's whole history.

It also models the customer (`Cliente`), which adds accounts and carries out transactions, and two registry lookups: a customer by tax id (`filtrar_cliente`) and an account by number (`buscar_conta`).

Files:

- `regras.dfy`, module `Regras`: the rules on values.
  - `Estado` is an account's balance and history.
  - `PodeSacar` and `PodeDepositar` are the checks of each account variant.
  - `Passo` is the effect of registering one transaction; `Executar` registers a sequence.
  - `Invariante` is the ledger invariant.
  - `Registradas` is the list of entries of the successful registrations of a sequence, in order; `SaquesAceitos` counts the successful withdrawals.
  - The lemmas: the history after a sequence of registrations is the old one followed by `Registradas`; the count of withdrawal entries is the number of successful withdrawals; the invariant holds from account opening onward.
- `banco.dfy`, module `Banco`: the objects.
  - `Historico` holds a `seq` of entries.
  - `Conta` holds a mutable `saldo`. A `variante` field selects the plain or the checking-account withdrawal rules.
  - `Cliente` holds its account list.
  - `RegistrarSaque`, `RegistrarDeposito` and `Registrar` are the `registrar` methods.
  - Every state-changing method ties the new state to the old one. Registration is tied to `Regras.Passo`.
- `busca.dfy`, module `Busca`: the two lookups, with a first-match specification.
- `cenarios.dfy`, module `Cenarios`: worked scenarios. One is on values (the checking-account ceilings). One is a client method on the objects (deposit, rejected withdrawal, accepted withdrawal, and a transaction on an account the customer does not hold).

Modelling choices:

- Amounts are mathematical integers, for instance cents.
- The time stamp of a history entry is the `data` parameter of the registering methods. No clock is modelled.
- Python has the subclass `ContaCorrente` overriding `sacar`. Here that is the constant field `Conta.variante` (`Simples` or `Corrente(limite, limiteSaques)`). `Conta.SacarBase` is the base class's `sacar`, which the override reaches through `super()`. `Conta.Sacar` is the overridden `sacar` and dispatches on the variant.
- `Cliente` and its subclass `PessoaFisica` are one class with the person's fields (name, birth date, tax id, address). The program only ever creates `PessoaFisica` customers, and the customer lookup reads the tax id.
- A history entry records the transaction's class name as its kind: the strings `"Saque"` and `"Deposito"`. The withdrawal count compares against that string, as desafio.py does.
- The invariant holds only for accounts moved exclusively through registration. `Conta.Sacar` and `Conta.Depositar` called directly change the balance without recording anything, as in the source. So the invariant is not a class invariant. The registering methods preserve it (their second `ensures`), and `Regras.ContaAbertaRespeitaLimites` proves it for every sequence of registrations from a new account.
- The count invariant reads "no withdrawals recorded, or at most `limiteSaques`". With a negative `limiteSaques`, every withdrawal is rejected and the count stays 0.
- In the end-to-end scenario, the withdrawal of 1500 from a balance of 1000 on a default checking account fails on the 500 ceiling before the balance is looked at. It fails and nothing changes, as `Cenarios.CenarioPontaAPonta` asserts.

## Model

| member | source | states |
|---|---|---|
| Regras.NumeroSaques | desafio.py:146-149 | the withdrawal count of a history is the number of positions whose entry has kind "Saque", over the whole history (at most its length) |
| Regras.NumeroSaquesAnexa | desafio.py:146-149 | appending an entry raises the whole-history withdrawal count by one if it is a withdrawal and leaves it unchanged otherwise |
| Regras.SaldoDeAnexa | desafio.py:185-209 | appending an entry changes the history's deposits-minus-withdrawals by exactly that entry's amount, with the sign of its kind |
| Regras.PodeSacar | desafio.py:144-162 | a checking-account withdrawal over the ceiling fails whatever the count and balance; within the ceiling but at the count ceiling it fails whatever the balance; otherwise the base check decides; a plain account applies the base check; an allowed withdrawal is positive and not more than the balance |
| Regras.Passo | desafio.py:185-209 | registration appends exactly one entry, with the transaction's kind and amount, if and only if the account operation succeeds, keeps the earlier entries, and moves the balance by exactly the amount; a failed registration leaves balance and history unchanged |
| Regras.SaquesAceitos | desafio.py:185-190 | the number of successful withdrawals of a sequence of registrations is at most the number of successful registrations |
| Regras.Registradas | desafio.py:185-209 | the entries of the successful registrations of a sequence, in order, are as many as the registrations that succeed |
| Regras.InicialInvariante | desafio.py:79-84 | a new account (balance 0, empty history) satisfies the ledger invariant |
| Regras.PassoPreservaInvariante | desafio.py:185-209 | one registration preserves the ledger invariant: balance non-negative and equal to deposits minus withdrawals of the history, every entry one a successful operation produces, withdrawal count at most the ceiling |
| Regras.ExecutarPreservaInvariante | desafio.py:185-209 | any sequence of registrations preserves the ledger invariant |
| Regras.ExecutarAnexa | desafio.py:48-58 | after any sequence of registrations, the new history is the old one followed by the entries of the successful registrations, in the order applied |
| Regras.ExecutarContaSaques | desafio.py:146-149 | after any sequence of registrations, the whole-history withdrawal count has grown by exactly the number of successful withdrawals |
| Regras.ContaAbertaRespeitaLimites | desafio.py:146-160 | for a new account moved only by registrations: the history is exactly the entries of the successful registrations in order, its withdrawal count is the number of successful withdrawals, the balance is non-negative and equals deposits minus withdrawals, and a checking account with a non-negative ceiling never records more withdrawals than that ceiling |
| Banco.Historico.constructor | desafio.py:39-40 | a new history is empty |
| Banco.Historico.AdicionarTransacao | desafio.py:48-58 | appends the entry (class name, amount, time stamp) at the end: length grows by one and the earlier entries are kept in order |
| Banco.Conta.constructor | desafio.py:79-84 | a new account has balance 0, branch "0001", the given number and owner, and a fresh empty history |
| Banco.Conta.Corrente | desafio.py:139-142 | a new checking account is a new account with the given ceilings, 500 per withdrawal and 3 withdrawals by default |
| Banco.Conta.NovaContaCorrente | desafio.py:86-88 | the factory binds owner and number and gives a fresh checking account with balance 0, branch "0001", an empty history and ceilings 500 and 3 |
| Banco.Conta.SacarBase | desafio.py:112-127 | fails with the balance unchanged when the amount exceeds the balance or is not positive; otherwise decreases the balance by exactly the amount and succeeds; a non-negative balance stays non-negative |
| Banco.Conta.Depositar | desafio.py:129-136 | with a positive amount increases the balance by exactly that amount and succeeds; otherwise fails with the balance unchanged |
| Banco.Conta.Sacar | desafio.py:144-162 | a checking account succeeds exactly when the amount is within the ceiling, the whole-history withdrawal count is below its ceiling, and the base check passes; a plain account applies the base check; a rejection leaves the balance unchanged and the history is never touched |
| Banco.RegistrarSaque | desafio.py:185-190 | the account's new balance and history are those of registering the withdrawal (entry appended only on success), and the ledger invariant is preserved |
| Banco.RegistrarDeposito | desafio.py:204-209 | the account's new balance and history are those of registering the deposit (entry appended only on success), and the ledger invariant is preserved |
| Banco.Registrar | desafio.py:74-76 | registering either kind of transaction changes the account as that kind's registration does |
| Banco.Cliente.constructor | desafio.py:32-36 | a new customer has the given personal data and no accounts |
| Banco.Cliente.RealizarTransacao | desafio.py:23-26 | registers the transaction on the given account with no ownership requirement; the account changes exactly as registration says |
| Banco.Cliente.AdicionarConta | desafio.py:28-29 | appends the account at the end of the customer's list, with no duplicate check |
| Busca.ClientesComCpf | desafio.py:232 | every customer kept has the tax id and is in the list, every customer with the tax id is kept, the result is empty if and only if none has it, and otherwise starts with the first that does |
| Busca.ClientesComCpfConcatena | desafio.py:232 | the customers kept from a concatenation are those kept from the first part followed by those kept from the second, so the comprehension keeps the list's order and repetitions |
| Busca.ClientesComCpfUnitario | desafio.py:232 | a one-customer list keeps that customer exactly when its tax id matches |
| Busca.FiltrarCliente | desafio.py:230-233 | returns None if and only if no customer has the tax id, and otherwise the first customer in list order that has it |
| Busca.BuscarConta | desafio.py:355-361 | returns None if and only if no account has the number, and otherwise the first account in list order that has it |
| Cenarios.CenarioLimites | desafio.py:139-162 | with default ceilings, deposit 1000, then withdrawals of 400 (accepted), 600 (over the ceiling), and 100 three times (accepted, accepted, rejected on the count): balance 400, three withdrawals recorded, and the history holds exactly the accepted operations in order |

## Left out

- The interactive front-end is not modelled: `menu`, `main`, `depositar(clientes)`, `sacar(clientes)`, `exibir_extrato`, `criar_cliente`, `criar_conta`, `listar_contas` and `recuperar_conta_cliente` (desafio.py:216-398). They are console input and output around the core.
- The `print` calls in the withdrawal and the deposit are output only. The model keeps only the returned flag and the state change.
- `datetime.now().strftime(...)` becomes the caller-supplied `data` string. So the model says nothing about time stamps being non-decreasing along a history.
- `ContaCorrente.__str__` and the `textwrap` formatting are not modelled.
- Amounts are integers. The front-end parses Python floats, and IEEE rounding of those is not modelled.
- The `abc` machinery and `eh_transacao_valida` are not modelled. The latter always returns true and no code calls it.
- The read-only `@property` accessors (`saldo`, `numero`, `agencia`, `cliente`, `historico`, `transacoes`, `valor`) are plain fields here.
- `Conta.nova_conta` called on the base class is the plain constructor `Banco.Conta.constructor`. Only the checking-account call of the factory has its own method.
