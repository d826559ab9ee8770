/**
 * The ledger rules of the bank account, stated on values.
 *
 * An account's observable state is its balance and its history. `Passo`
 * is the effect of registering one transaction on that state, exactly as
 * the account classes and the `registrar` methods perform it; the class
 * methods in module Banco are proved to change the heap as `Passo`
 * says, and the lemmas here state what follows for every sequence of
 * registrations.
 *
 * Amounts are integers (for instance cents).
 */
module Regras {

  /** The two kinds of transaction; each carries its amount. */
  datatype Transacao = Saque(valor: int) | Deposito(valor: int)

  /** The class name a transaction is recorded under in the history. */
  function Tipo(t: Transacao): (r: string)
  {
    match t
    case Saque(_) => "Saque"
    case Deposito(_) => "Deposito"
  }

  /** One history entry: kind tag, amount and the time stamp string. */
  datatype Entrada = Entrada(tipo: string, valor: int, data: string)

  /** The entry that recording `t` at time `data` appends. */
  function EntradaDe(t: Transacao, data: string): (e: Entrada)
  {
    Entrada(Tipo(t), t.valor, data)
  }

  /** The account variant: a plain account, or a checking account with its
      per-withdrawal ceiling and its ceiling on the number of withdrawals. */
  datatype Variante = Simples | Corrente(limite: int, limiteSaques: int)

  const Agencia: string := "0001"
  const LimitePadrao: int := 500
  const LimiteSaquesPadrao: int := 3

  /** Balance and history of one account. */
  datatype Estado = Estado(saldo: int, historico: seq<Entrada>)

  /** The state of a freshly opened account. */
  const Inicial: Estado := Estado(0, [])

  /** The positions of the withdrawal entries of a history. */
  ghost function IndicesSaque(h: seq<Entrada>): set<int>
  {
    set i | 0 <= i < |h| && h[i].tipo == "Saque"
  }

  /** Number of withdrawal entries over the whole history: the length of
      the list of entries whose kind is "Saque". */
  function NumeroSaques(h: seq<Entrada>): (n: nat)
    ensures n == |IndicesSaque(h)|
    ensures n <= |h|
  {
    if h == [] then 0
    else
      var p, e := h[..|h| - 1], h[|h| - 1];
      assert h == p + [e];
      assert IndicesSaque(h) == IndicesSaque(p) + (if e.tipo == "Saque" then {|p|} else {}) by {
        forall i | 0 <= i < |p| ensures h[i] == p[i] { }
      }
      NumeroSaques(p) + (if e.tipo == "Saque" then 1 else 0)
  }

  /** Deposited amounts minus withdrawn amounts recorded in a history. */
  function SaldoDe(h: seq<Entrada>): (total: int)
  {
    if h == [] then 0
    else Efeito(h[0]) + SaldoDe(h[1..])
  }

  /** What one entry contributes to the balance. */
  function Efeito(e: Entrada): (delta: int)
  {
    if e.tipo == "Deposito" then e.valor
    else if e.tipo == "Saque" then -e.valor
    else 0
  }

  /** The base account's withdrawal check: not more than the balance, and
      a positive amount. */
  predicate PodeSacarBase(saldo: int, valor: int)
  {
    !(valor > saldo) && valor > 0
  }

  /** The deposit check. */
  predicate PodeDepositar(valor: int)
  {
    valor > 0
  }

  /** The withdrawal check of the variant. A checking account tests its
      ceiling first (an amount over it fails whatever the count and the
      balance), then its withdrawal count (at the ceiling it fails whatever
      the balance), and only then the base check. An allowed withdrawal is
      positive and not more than the balance, so it never makes a
      non-negative balance negative. */
  function PodeSacar(v: Variante, s: Estado, valor: int): (ok: bool)
    ensures ok ==> 0 < valor <= s.saldo
    ensures v.Simples? ==> (ok <==> PodeSacarBase(s.saldo, valor))
    ensures v.Corrente? && valor > v.limite ==> !ok
    ensures v.Corrente? && valor <= v.limite && NumeroSaques(s.historico) >= v.limiteSaques ==> !ok
    ensures v.Corrente? && valor <= v.limite && NumeroSaques(s.historico) < v.limiteSaques
            ==> (ok <==> PodeSacarBase(s.saldo, valor))
  {
    match v
    case Simples => PodeSacarBase(s.saldo, valor)
    case Corrente(limite, limiteSaques) =>
      if valor > limite then false
      else if NumeroSaques(s.historico) >= limiteSaques then false
      else PodeSacarBase(s.saldo, valor)
  }

  /** Whether the account operation behind `t` succeeds in state `s`. */
  predicate Aceita(v: Variante, s: Estado, t: Transacao)
  {
    match t
    case Saque(x) => PodeSacar(v, s, x)
    case Deposito(x) => PodeDepositar(x)
  }

  /** Registering `t` on an account in state `s` at time `data`: the
      account operation runs, and only if it succeeds is the entry
      appended. So exactly one entry, of the transaction's kind and amount,
      is appended if and only if the operation succeeds, and the balance
      moves by exactly the amount; otherwise nothing changes. */
  function Passo(v: Variante, s: Estado, t: Transacao, data: string): (r: Estado)
    ensures |r.historico| == |s.historico| + (if Aceita(v, s, t) then 1 else 0)
    ensures r.historico[..|s.historico|] == s.historico
    ensures Aceita(v, s, t) ==>
              && r.historico[|s.historico|] == Entrada(Tipo(t), t.valor, data)
              && r.saldo == (if t.Saque? then s.saldo - t.valor else s.saldo + t.valor)
    ensures !Aceita(v, s, t) ==> r == s
  {
    match t
    case Saque(x) =>
      if PodeSacar(v, s, x)
      then Estado(s.saldo - x, s.historico + [EntradaDe(t, data)])
      else s
    case Deposito(x) =>
      if PodeDepositar(x)
      then Estado(s.saldo + x, s.historico + [EntradaDe(t, data)])
      else s
  }

  /** A transaction together with the time stamp it is recorded with. */
  datatype Operacao = Operacao(t: Transacao, data: string)

  /** Registering a sequence of transactions one after another. */
  function Executar(v: Variante, s: Estado, ops: seq<Operacao>): (r: Estado)
    decreases ops
  {
    if ops == [] then s
    else Executar(v, Passo(v, s, ops[0].t, ops[0].data), ops[1..])
  }

  /** How many of `ops` succeed, when registered in order from `s`. */
  function Aceitas(v: Variante, s: Estado, ops: seq<Operacao>): (n: nat)
    decreases ops
  {
    if ops == [] then 0
    else (if Aceita(v, s, ops[0].t) then 1 else 0)
         + Aceitas(v, Passo(v, s, ops[0].t, ops[0].data), ops[1..])
  }

  /** How many of `ops` are withdrawals that succeed, when registered in
      order from `s`. */
  function SaquesAceitos(v: Variante, s: Estado, ops: seq<Operacao>): (n: nat)
    ensures n <= Aceitas(v, s, ops)
    decreases ops
  {
    if ops == [] then 0
    else (if ops[0].t.Saque? && Aceita(v, s, ops[0].t) then 1 else 0)
         + SaquesAceitos(v, Passo(v, s, ops[0].t, ops[0].data), ops[1..])
  }

  /** The entries of the operations of `ops` that succeed, when registered
      in order from `s`, in the order they are applied: one per success. */
  function Registradas(v: Variante, s: Estado, ops: seq<Operacao>): (r: seq<Entrada>)
    ensures |r| == Aceitas(v, s, ops)
    decreases ops
  {
    if ops == [] then []
    else (if Aceita(v, s, ops[0].t) then [EntradaDe(ops[0].t, ops[0].data)] else [])
         + Registradas(v, Passo(v, s, ops[0].t, ops[0].data), ops[1..])
  }

  /** An entry that only a successful registration can have produced on an
      account of variant `v`. */
  predicate EntradaValida(v: Variante, e: Entrada)
  {
    || (e.tipo == "Deposito" && e.valor > 0)
    || (e.tipo == "Saque" && e.valor > 0 && (v.Corrente? ==> e.valor <= v.limite))
  }

  /** The ledger invariant of an account all of whose movements went
      through registration: the balance is never negative and equals the
      history's deposits minus its withdrawals, every entry is one a
      successful operation produces, and a checking account has never
      recorded more withdrawals than its ceiling allows. */
  predicate Invariante(v: Variante, s: Estado)
  {
    && s.saldo >= 0
    && s.saldo == SaldoDe(s.historico)
    && (forall i :: 0 <= i < |s.historico| ==> EntradaValida(v, s.historico[i]))
    && (v.Corrente? ==> NumeroSaques(s.historico) == 0 || NumeroSaques(s.historico) <= v.limiteSaques)
  }

  // ---------------------------------------------------------------------
  // Lemmas
  // ---------------------------------------------------------------------

  /** Appending one entry adds one to the count exactly when it is a
      withdrawal. */
  lemma NumeroSaquesAnexa(h: seq<Entrada>, e: Entrada)
    ensures NumeroSaques(h + [e]) == NumeroSaques(h) + (if e.tipo == "Saque" then 1 else 0)
  {
    assert (h + [e])[..|h|] == h;
  }

  /** Appending one entry adds its effect to the recorded balance. */
  lemma {:induction false} SaldoDeAnexa(h: seq<Entrada>, e: Entrada)
    ensures SaldoDe(h + [e]) == SaldoDe(h) + Efeito(e)
  {
    if h == [] {
      assert [] + [e] == [e];
    } else {
      assert (h + [e])[1..] == h[1..] + [e];
      SaldoDeAnexa(h[1..], e);
    }
  }

  /** A new account satisfies the ledger invariant. */
  lemma InicialInvariante(v: Variante)
    ensures Invariante(v, Inicial)
  {
  }

  /** One registration preserves the ledger invariant. */
  lemma PassoPreservaInvariante(v: Variante, s: Estado, t: Transacao, data: string)
    requires Invariante(v, s)
    ensures Invariante(v, Passo(v, s, t, data))
  {
    var e := EntradaDe(t, data);
    if Aceita(v, s, t) {
      NumeroSaquesAnexa(s.historico, e);
      SaldoDeAnexa(s.historico, e);
      var h' := s.historico + [e];
      assert Passo(v, s, t, data) == Estado(s.saldo + Efeito(e), h');
      forall i | 0 <= i < |h'|
        ensures EntradaValida(v, h'[i])
      {
        if i < |s.historico| {
          assert h'[i] == s.historico[i];
        }
      }
    }
  }

  /** Any sequence of registrations preserves the ledger invariant. */
  lemma {:induction false} ExecutarPreservaInvariante(v: Variante, s: Estado, ops: seq<Operacao>)
    requires Invariante(v, s)
    ensures Invariante(v, Executar(v, s, ops))
    decreases ops
  {
    if ops != [] {
      PassoPreservaInvariante(v, s, ops[0].t, ops[0].data);
      ExecutarPreservaInvariante(v, Passo(v, s, ops[0].t, ops[0].data), ops[1..]);
    }
  }

  /** The history only grows at its end: after a sequence of registrations
      the new history is the old one followed by the entries of the
      registrations that succeeded, in the order they were applied. */
  lemma {:induction false} ExecutarAnexa(v: Variante, s: Estado, ops: seq<Operacao>)
    ensures Executar(v, s, ops).historico == s.historico + Registradas(v, s, ops)
    decreases ops
  {
    if ops != [] {
      var s1 := Passo(v, s, ops[0].t, ops[0].data);
      var novas := if Aceita(v, s, ops[0].t) then [EntradaDe(ops[0].t, ops[0].data)] else [];
      assert s1.historico == s.historico + novas by {
        assert s1.historico == s1.historico[..|s.historico|] + s1.historico[|s.historico|..];
      }
      ExecutarAnexa(v, s1, ops[1..]);
      assert s.historico + novas + Registradas(v, s1, ops[1..])
          == s.historico + (novas + Registradas(v, s1, ops[1..]));
    }
  }

  /** The withdrawal count of the history after a sequence of
      registrations is the old count plus the number of withdrawals that
      succeeded: the kind tag recorded is what the count reads. */
  lemma {:induction false} ExecutarContaSaques(v: Variante, s: Estado, ops: seq<Operacao>)
    ensures NumeroSaques(Executar(v, s, ops).historico)
            == NumeroSaques(s.historico) + SaquesAceitos(v, s, ops)
    decreases ops
  {
    if ops != [] {
      var t := ops[0].t;
      var s1 := Passo(v, s, t, ops[0].data);
      if Aceita(v, s, t) {
        assert s1.historico == s.historico + [EntradaDe(t, ops[0].data)];
        NumeroSaquesAnexa(s.historico, EntradaDe(t, ops[0].data));
      }
      ExecutarContaSaques(v, s1, ops[1..]);
    }
  }

  /** For an account opened fresh and moved only by registrations: the
      history is exactly the entries of the successful registrations in
      order, its withdrawal count is the number of successful withdrawals,
      the balance is non-negative and equals the deposits minus the
      withdrawals of the history, and a checking account with a
      non-negative ceiling never records more withdrawals than that
      ceiling, however many are attempted. */
  lemma ContaAbertaRespeitaLimites(v: Variante, ops: seq<Operacao>)
    ensures var r := Executar(v, Inicial, ops);
      && r.historico == Registradas(v, Inicial, ops)
      && NumeroSaques(r.historico) == SaquesAceitos(v, Inicial, ops)
      && r.saldo >= 0
      && r.saldo == SaldoDe(r.historico)
      && (v.Corrente? && v.limiteSaques >= 0 ==> NumeroSaques(r.historico) <= v.limiteSaques)
  {
    InicialInvariante(v);
    ExecutarPreservaInvariante(v, Inicial, ops);
    ExecutarAnexa(v, Inicial, ops);
    ExecutarContaSaques(v, Inicial, ops);
    assert Inicial.historico + Registradas(v, Inicial, ops) == Registradas(v, Inicial, ops);
  }
}
