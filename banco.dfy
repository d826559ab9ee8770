/**
 * The account objects: history, account (plain or checking), customer,
 * and the registration of a withdrawal or a deposit.
 *
 * Each method that changes state says what the new balance and history
 * are; registration is tied to `Regras.Passo`, so the lemmas of module
 * Regras apply to every account moved only by registrations.
 */
module Banco {
  import opened Regras

  /** The append-only transaction log of one account. */
  class Historico {
    var transacoes: seq<Entrada>

    constructor ()
      ensures transacoes == []
    {
      transacoes := [];
    }

    /** Appends the entry for `t`, stamped `data`, at the end. */
    method AdicionarTransacao(t: Transacao, data: string)
      modifies this
      ensures transacoes == old(transacoes) + [EntradaDe(t, data)]
      ensures |transacoes| == |old(transacoes)| + 1
      ensures transacoes[..|old(transacoes)|] == old(transacoes)
      ensures transacoes[|old(transacoes)|] == Entrada(Tipo(t), t.valor, data)
    {
      transacoes := transacoes + [EntradaDe(t, data)];
    }
  }

  /** A bank account. `variante` selects the withdrawal rules: a plain
      account, or a checking account with its two ceilings. */
  class Conta {
    var saldo: int
    const numero: int
    const agencia: string
    const cliente: Cliente
    const historico: Historico
    const variante: Variante

    /** The balance and history of this account, as a value. */
    ghost function Situacao(): Regras.Estado
      reads this, historico
    {
      Regras.Estado(saldo, historico.transacoes)
    }

    /** Opens a plain account. */
    constructor (numero: int, cliente: Cliente)
      ensures saldo == 0 && agencia == Agencia && historico.transacoes == []
      ensures this.numero == numero && this.cliente == cliente && variante == Simples
      ensures fresh(historico)
    {
      saldo := 0;
      this.numero := numero;
      agencia := Agencia;
      this.cliente := cliente;
      historico := new Historico();
      variante := Simples;
    }

    /** Opens a checking account, by default with a ceiling of 500 per
        withdrawal and of 3 withdrawals. */
    constructor Corrente(numero: int, cliente: Cliente,
                         limite: int := LimitePadrao, limiteSaques: int := LimiteSaquesPadrao)
      ensures saldo == 0 && agencia == Agencia && historico.transacoes == []
      ensures this.numero == numero && this.cliente == cliente
      ensures variante == Variante.Corrente(limite, limiteSaques)
      ensures fresh(historico)
    {
      saldo := 0;
      this.numero := numero;
      agencia := Agencia;
      this.cliente := cliente;
      historico := new Historico();
      variante := Variante.Corrente(limite, limiteSaques);
    }

    /** The factory `nova_conta` called on the checking-account class:
        binds owner and number, default ceilings. */
    static method NovaContaCorrente(cliente: Cliente, numero: int) returns (c: Conta)
      ensures fresh(c) && fresh(c.historico)
      ensures c.saldo == 0 && c.agencia == "0001" && c.historico.transacoes == []
      ensures c.numero == numero && c.cliente == cliente
      ensures c.variante == Variante.Corrente(500, 3)
    {
      c := new Conta.Corrente(numero, cliente);
    }

    /** The base withdrawal: fails when the amount is over the balance or
        not positive, otherwise takes the amount off the balance. */
    method SacarBase(valor: int) returns (ok: bool)
      modifies this`saldo
      ensures ok <==> valor <= old(saldo) && valor > 0
      ensures saldo == if ok then old(saldo) - valor else old(saldo)
      ensures old(saldo) >= 0 ==> saldo >= 0
    {
      var excedeuSaldo := valor > saldo;
      if excedeuSaldo {
        ok := false;
      } else if valor > 0 {
        saldo := saldo - valor;
        ok := true;
      } else {
        ok := false;
      }
    }

    /** The deposit: fails on an amount that is not positive, otherwise
        adds it to the balance. */
    method Depositar(valor: int) returns (ok: bool)
      modifies this`saldo
      ensures ok <==> valor > 0
      ensures ok == PodeDepositar(valor)
      ensures saldo == if ok then old(saldo) + valor else old(saldo)
    {
      if valor > 0 {
        saldo := saldo + valor;
        ok := true;
      } else {
        ok := false;
      }
    }

    /** The withdrawal of this account's variant. A checking account fails
        over its per-withdrawal ceiling, then at its withdrawal count
        ceiling (the count taken over the whole history), and only then
        applies the base withdrawal. */
    method Sacar(valor: int) returns (ok: bool)
      modifies this`saldo
      ensures ok == PodeSacar(variante, old(Situacao()), valor)
      ensures variante.Simples? ==> (ok <==> valor <= old(saldo) && valor > 0)
      ensures variante.Corrente? ==>
                (ok <==> && valor <= variante.limite
                         && NumeroSaques(historico.transacoes) < variante.limiteSaques
                         && valor <= old(saldo) && valor > 0)
      ensures saldo == if ok then old(saldo) - valor else old(saldo)
      ensures old(saldo) >= 0 ==> saldo >= 0
    {
      match variante
      case Simples =>
        ok := SacarBase(valor);
      case Corrente(limite, limiteSaques) =>
        var numeroSaques := NumeroSaques(historico.transacoes);
        var excedeuLimite := valor > limite;
        var excedeuSaques := numeroSaques >= limiteSaques;
        if excedeuLimite {
          ok := false;
        } else if excedeuSaques {
          ok := false;
        } else {
          ok := SacarBase(valor);
        }
    }
  }

  /** `Saque.registrar`: withdraws, and records the entry only when the
      withdrawal succeeded. */
  method RegistrarSaque(valor: int, conta: Conta, data: string)
    modifies conta`saldo, conta.historico
    ensures conta.Situacao() == Passo(conta.variante, old(conta.Situacao()), Saque(valor), data)
    ensures Invariante(conta.variante, old(conta.Situacao())) ==> Invariante(conta.variante, conta.Situacao())
  {
    ghost var antes := conta.Situacao();
    var sucesso := conta.Sacar(valor);
    if sucesso {
      conta.historico.AdicionarTransacao(Saque(valor), data);
    }
    if Invariante(conta.variante, antes) {
      PassoPreservaInvariante(conta.variante, antes, Saque(valor), data);
    }
  }

  /** `Deposito.registrar`: deposits, and records the entry only when the
      deposit succeeded. */
  method RegistrarDeposito(valor: int, conta: Conta, data: string)
    modifies conta`saldo, conta.historico
    ensures conta.Situacao() == Passo(conta.variante, old(conta.Situacao()), Deposito(valor), data)
    ensures Invariante(conta.variante, old(conta.Situacao())) ==> Invariante(conta.variante, conta.Situacao())
  {
    ghost var antes := conta.Situacao();
    var sucesso := conta.Depositar(valor);
    if sucesso {
      conta.historico.AdicionarTransacao(Deposito(valor), data);
    }
    if Invariante(conta.variante, antes) {
      PassoPreservaInvariante(conta.variante, antes, Deposito(valor), data);
    }
  }

  /** Dispatch of `registrar` on the transaction's class. */
  method Registrar(t: Transacao, conta: Conta, data: string)
    modifies conta`saldo, conta.historico
    ensures conta.Situacao() == Passo(conta.variante, old(conta.Situacao()), t, data)
    ensures Invariante(conta.variante, old(conta.Situacao())) ==> Invariante(conta.variante, conta.Situacao())
  {
    match t
    case Saque(valor) => RegistrarSaque(valor, conta, data);
    case Deposito(valor) => RegistrarDeposito(valor, conta, data);
  }

  /** A customer (a natural person: name, birth date, tax id, address) and
      the accounts added to it. */
  class Cliente {
    const endereco: string
    const nome: string
    const dataNascimento: string
    const cpf: string
    var contas: seq<Conta>

    constructor (nome: string, dataNascimento: string, cpf: string, endereco: string)
      ensures this.nome == nome && this.dataNascimento == dataNascimento
      ensures this.cpf == cpf && this.endereco == endereco
      ensures contas == []
    {
      this.nome := nome;
      this.dataNascimento := dataNascimento;
      this.cpf := cpf;
      this.endereco := endereco;
      contas := [];
    }

    /** Registers `t` on `conta`. There is no check that `conta` belongs to
        this customer: any account is moved. */
    method RealizarTransacao(conta: Conta, t: Transacao, data: string)
      modifies conta`saldo, conta.historico
      ensures conta.Situacao() == Passo(conta.variante, old(conta.Situacao()), t, data)
      ensures Invariante(conta.variante, old(conta.Situacao())) ==> Invariante(conta.variante, conta.Situacao())
    {
      Registrar(t, conta, data);
    }

    /** Appends `conta` to this customer's accounts, with no duplicate
        check. */
    method AdicionarConta(conta: Conta)
      modifies this`contas
      ensures contas == old(contas) + [conta]
    {
      contas := contas + [conta];
    }
  }
}
